/** Maturity levels of the systems in the registry's universe (scripts/build_d3l_maturity_report.py). */
module MaturityReport {
  import opened Wrappers
  import opened Ordering

  datatype Signal =
    | MissingEval | MissingLineage | MissingReplay | MissingObservability | MissingControl
    | MissingEnforcementSignal | MissingReadinessEvidence | MissingTests | SchemaWeakness
    | OtherSignal(name: string)

  datatype TrustState = BlockedSignal | FreezeSignal | CautionSignal | Warn | UnknownSignal | OtherState(name: string)

  predicate Warning(t: TrustState) { t.BlockedSignal? || t.FreezeSignal? || t.CautionSignal? || t.Warn? }

  predicate Structural(s: Signal) {
    s.MissingEval? || s.MissingLineage? || s.MissingReplay? || s.MissingObservability? || s.MissingControl?
    || s.MissingEnforcementSignal? || s.MissingReadinessEvidence?
  }

  /** The order in which gaps are reported. */
  function KeyGapOrder(k: nat): Signal
    requires k < 9
  {
    if k == 0 then MissingEnforcementSignal
    else if k == 1 then MissingLineage
    else if k == 2 then MissingReplay
    else if k == 3 then MissingObservability
    else if k == 4 then MissingControl
    else if k == 5 then MissingEval
    else if k == 6 then MissingReadinessEvidence
    else if k == 7 then MissingTests
    else SchemaWeakness
  }

  datatype Evidence = Evidence(has: bool, count: int)

  datatype Trust = Trust(failing: seq<Signal>, state: TrustState)

  /** The evidence and trust-gap artifacts by system (the last entry of a system counts), and whether the freshness gate
      is ok. */
  datatype Inputs = Inputs(evidence: map<string, Evidence>, trust: map<string, Trust>, priorityFresh: bool)

  datatype Status = Ready | Caution | Closed | Unknown

  datatype Row = Row(
    id: string, level: nat, status: Status, evidenceCount: int, hasEvidence: bool, failing: seq<Signal>,
    structural: seq<Signal>, state: TrustState, priorityFresh: bool, keyGap: Option<Signal>)

  datatype Report =
    | FailClosed(priorityFresh: bool)
    | Report(rows: seq<Row>, counts: seq<nat>, size: nat, caps: nat, priorityFresh: bool)

  function StructuralIn(failing: seq<Signal>): seq<Signal> {
    if failing == [] then []
    else (if Structural(failing[0]) then [failing[0]] else []) + StructuralIn(failing[1..])
  }

  /** `_structural_level` */
  function StructuralLevel(hasEvidence: bool, structural: seq<Signal>, state: TrustState): (level: nat)
    ensures level <= 4
  {
    var failing := |structural|;
    if !hasEvidence then 0
    else if failing >= 3 then 1
    else if failing >= 2 then 1
    else if failing == 1 then 2
    else if Warning(state) then 3
    else 4
  }

  function FirstGap(failing: seq<Signal>, k: nat): Option<Signal>
    requires k <= 9
    decreases 9 - k
  {
    if k == 9 then None
    else if KeyGapOrder(k) in failing then Some(KeyGapOrder(k))
    else FirstGap(failing, k + 1)
  }

  /** `_key_gap`; None is "no_recorded_gap" */
  function KeyGap(failing: seq<Signal>): Option<Signal> {
    var known := FirstGap(failing, 0);
    if known.Some? then known else if failing != [] then Some(failing[0]) else None
  }

  function StatusOf(level: nat): Status {
    if level == 4 then Ready else if level >= 2 then Caution else if level == 1 then Closed else Unknown
  }

  function EvidenceOf(inputs: Inputs, id: string): Evidence {
    if id in inputs.evidence then inputs.evidence[id] else Evidence(false, 0)
  }

  function TrustOf(inputs: Inputs, id: string): Trust {
    if id in inputs.trust then inputs.trust[id] else Trust([], UnknownSignal)
  }

  /** The level before the staleness cap. */
  function UncappedLevel(inputs: Inputs, id: string): (level: nat)
    ensures level <= 4
  {
    StructuralLevel(EvidenceOf(inputs, id).has, StructuralIn(TrustOf(inputs, id).failing), TrustOf(inputs, id).state)
  }

  predicate Capped(inputs: Inputs, id: string) { !inputs.priorityFresh && UncappedLevel(inputs, id) == 4 }

  function RowOf(inputs: Inputs, id: string): (r: Row)
    ensures r.level <= 4
  {
    var e, t := EvidenceOf(inputs, id), TrustOf(inputs, id);
    var level := if Capped(inputs, id) then 3 else UncappedLevel(inputs, id);
    Row(id, level, StatusOf(level), e.count, e.has, t.failing, StructuralIn(t.failing), t.state, inputs.priorityFresh,
      KeyGap(t.failing))
  }

  function Rows(inputs: Inputs, universe: seq<string>): seq<Row> {
    if universe == [] then []
    else Rows(inputs, universe[..|universe| - 1]) + [RowOf(inputs, universe[|universe| - 1])]
  }

  lemma {:induction false} RowsAt(inputs: Inputs, universe: seq<string>)
    ensures |Rows(inputs, universe)| == |universe|
    ensures forall k :: 0 <= k < |universe| ==> Rows(inputs, universe)[k] == RowOf(inputs, universe[k])
  {
    if universe != [] { RowsAt(inputs, universe[..|universe| - 1]); }
  }

  function AtLevel(l: nat): Row -> bool { (r: Row) => r.level == l }

  function CappedIn(inputs: Inputs): string -> bool { id => Capped(inputs, id) }

  function Counts(rows: seq<Row>): (r: seq<nat>)
    ensures |r| == 5 && forall l :: 0 <= l < 5 ==> r[l] == Count(rows, AtLevel(l))
  {
    seq(5, l requires 0 <= l < 5 => Count(rows, AtLevel(l)))
  }

  function ReportOf(universe: Option<seq<string>>, inputs: Inputs): Report {
    if universe.None? then FailClosed(inputs.priorityFresh)
    else
      var rows := Rows(inputs, universe.value);
      Report(rows, Counts(rows), |universe.value|, Count(universe.value, CappedIn(inputs)), inputs.priorityFresh)
  }

  /** The level of one system, and whether the staleness cap lowered it. */
  method RateSystem(inputs: Inputs, id: string) returns (row: Row, capped: bool)
    ensures row == RowOf(inputs, id) && capped == Capped(inputs, id)
  {
    var e, t := EvidenceOf(inputs, id), TrustOf(inputs, id);
    var structural := StructuralIn(t.failing);
    var level := StructuralLevel(e.has, structural, t.state);
    capped := false;
    if !inputs.priorityFresh && level == 4 {
      level := 3;
      capped := true;
    }
    row := Row(id, level, StatusOf(level), e.count, e.has, t.failing, structural, t.state, inputs.priorityFresh,
        KeyGap(t.failing));
  }

  lemma CountsStep(rows: seq<Row>, row: Row)
    requires row.level <= 4
    ensures Counts(rows + [row]) == Counts(rows)[row.level := Counts(rows)[row.level] + 1]
  {
    assert (rows + [row])[..|rows|] == rows;
  }

  /** `build_maturity_report` */
  method BuildMaturityReport(universe: Option<seq<string>>, inputs: Inputs) returns (r: Report)
    ensures r == ReportOf(universe, inputs)
  {
    if universe.None? { return FailClosed(inputs.priorityFresh); }
    var rows, caps, counts := RateAll(universe.value, inputs);
    r := Report(rows, counts, |universe.value|, caps, inputs.priorityFresh);
  }

  lemma RateStep(inputs: Inputs, ids: seq<string>, i: nat)
    requires i < |ids|
    ensures Rows(inputs, ids[..i + 1]) == Rows(inputs, ids[..i]) + [RowOf(inputs, ids[i])]
    ensures Count(ids[..i + 1], CappedIn(inputs))
         == Count(ids[..i], CappedIn(inputs)) + (if Capped(inputs, ids[i]) then 1 else 0)
  {
    assert ids[..i + 1][..i] == ids[..i];
  }

  method RateAll(ids: seq<string>, inputs: Inputs) returns (rows: seq<Row>, caps: nat, counts: seq<nat>)
    ensures rows == Rows(inputs, ids)
    ensures counts == Counts(rows)
    ensures caps == Count(ids, CappedIn(inputs))
  {
    rows, caps, counts := [], 0, [0, 0, 0, 0, 0];
    for i := 0 to |ids|
      invariant rows == Rows(inputs, ids[..i])
      invariant counts == Counts(rows)
      invariant caps == Count(ids[..i], CappedIn(inputs))
    {
      var row, capped := RateSystem(inputs, ids[i]);
      RateStep(inputs, ids, i);
      CountsStep(rows, row);
      if capped { caps := caps + 1; }
      rows := rows + [row];
      counts := counts[row.level := counts[row.level] + 1];
    }
    assert ids[..|ids|] == ids;
  }

  // ------------------------------------------------------------ what the report holds

  lemma {:induction false} CountsAddUp(rows: seq<Row>)
    requires forall k :: 0 <= k < |rows| ==> rows[k].level <= 4
    ensures var c := Counts(rows); c[0] + c[1] + c[2] + c[3] + c[4] == |rows|
  {
    if rows != [] { CountsAddUp(rows[..|rows| - 1]); }
  }

  /** The level counts sum to the universe. */
  lemma CountsSumToUniverse(universe: seq<string>, inputs: Inputs)
    ensures var r := ReportOf(Some(universe), inputs);
            r.counts[0] + r.counts[1] + r.counts[2] + r.counts[3] + r.counts[4] == r.size == |r.rows|
  {
    RowsAt(inputs, universe);
    CountsAddUp(Rows(inputs, universe));
  }

  ghost predicate Repeated(failing: seq<Signal>) {
    exists i, j :: 0 <= i < j < |failing| && Structural(failing[i]) && Structural(failing[j])
  }

  lemma {:induction false} StructuralSome(failing: seq<Signal>)
    ensures StructuralIn(failing) == [] <==> forall i :: 0 <= i < |failing| ==> !Structural(failing[i])
  {
    if failing != [] {
      StructuralSome(failing[1..]);
      if forall i :: 0 <= i < |failing| ==> !Structural(failing[i]) {
        forall i | 0 <= i < |failing[1..]| ensures !Structural(failing[1..][i]) {
          assert failing[1..][i] == failing[i + 1];
        }
      }
      if StructuralIn(failing) == [] {
        forall i | 0 <= i < |failing| ensures !Structural(failing[i]) {
          assert i > 0 ==> failing[i] == failing[1..][i - 1];
        }
      }
    }
  }

  lemma {:induction false} StructuralTwice(failing: seq<Signal>)
    ensures |StructuralIn(failing)| >= 2 <==> Repeated(failing)
  {
    if failing != [] {
      var rest := failing[1..];
      StructuralTwice(rest);
      StructuralSome(rest);
      if Repeated(rest) {
        var i, j :| 0 <= i < j < |rest| && Structural(rest[i]) && Structural(rest[j]);
        assert Structural(failing[i + 1]) && Structural(failing[j + 1]);
      }
      if Structural(failing[0]) && StructuralIn(rest) != [] {
        var j :| 0 <= j < |rest| && Structural(rest[j]);
        assert Structural(failing[0]) && Structural(failing[j + 1]);
      }
      if Repeated(failing) {
        var i, j :| 0 <= i < j < |failing| && Structural(failing[i]) && Structural(failing[j]);
        assert Structural(rest[j - 1]);
        assert i > 0 ==> Structural(rest[i - 1]);
      }
    }
  }

  ghost predicate NoneStructural(failing: seq<Signal>) {
    forall i :: 0 <= i < |failing| ==> !Structural(failing[i])
  }

  /** What each level says of a system: 4, fresh priority, evidence, no structural signal and no warning state; 3, the
      same but for a warning state or a stale gate; 2, evidence and a structural signal at exactly one place of the
      list; 1, evidence and structural signals at two places, be they the same signal or not; 0, no evidence. */
  lemma LevelMeans(inputs: Inputs, id: string)
    ensures var (failing, state) := (TrustOf(inputs, id).failing, TrustOf(inputs, id).state);
            var (level, has) := (RowOf(inputs, id).level, EvidenceOf(inputs, id).has);
            && (level == 4 <==> has && NoneStructural(failing) && !Warning(state) && inputs.priorityFresh)
            && (level == 3 <==> has && NoneStructural(failing) && (Warning(state) || !inputs.priorityFresh))
            && (level == 2 <==> has && !NoneStructural(failing) && !Repeated(failing))
            && (level == 1 <==> has && Repeated(failing))
            && (level == 0 <==> !has)
  {
    var failing := TrustOf(inputs, id).failing;
    StructuralSome(failing);
    StructuralTwice(failing);
  }

  /** The staleness cap is the only thing freshness changes, and it moves a row from 4 to 3. */
  lemma FreshnessOnlyCaps(inputs: Inputs, id: string)
    ensures var current, stale := RowOf(inputs.(priorityFresh := true), id), RowOf(inputs.(priorityFresh := false), id);
            stale.level == (if current.level == 4 then 3 else current.level)
            && (Capped(inputs.(priorityFresh := false), id) <==> current.level == 4)
  {
    assert EvidenceOf(inputs.(priorityFresh := true), id) == EvidenceOf(inputs.(priorityFresh := false), id);
    assert TrustOf(inputs.(priorityFresh := true), id) == TrustOf(inputs.(priorityFresh := false), id);
  }

  lemma CountAtLast(rows: seq<Row>, row: Row)
    ensures Count(rows + [row], AtLevel(4)) == Count(rows, AtLevel(4)) + (if row.level == 4 then 1 else 0)
  {
    assert (rows + [row])[..|rows|] == rows;
  }

  /** The caps reported when the gate is stale are the rows that would be at level 4 were it fresh; none when it is
      fresh. */
  lemma {:induction false} CapsAreLostTops(universe: seq<string>, inputs: Inputs)
    ensures ReportOf(Some(universe), inputs.(priorityFresh := false)).caps
            == Count(Rows(inputs.(priorityFresh := true), universe), AtLevel(4))
    ensures ReportOf(Some(universe), inputs.(priorityFresh := true)).caps == 0
    ensures Count(Rows(inputs.(priorityFresh := false), universe), AtLevel(4)) == 0
  {
    if universe != [] {
      var n := |universe| - 1;
      CapsAreLostTops(universe[..n], inputs);
      FreshnessOnlyCaps(inputs, universe[n]);
      CountAtLast(Rows(inputs.(priorityFresh := true), universe[..n]),
        RowOf(inputs.(priorityFresh := true), universe[n]));
      CountAtLast(Rows(inputs.(priorityFresh := false), universe[..n]),
        RowOf(inputs.(priorityFresh := false), universe[n]));
    }
  }

  /** Entry k of the order is among the failing signals, and no entry from `from` up to it is. */
  ghost predicate FirstAt(failing: seq<Signal>, from: nat, k: nat) {
    from <= k < 9 && KeyGapOrder(k) in failing && forall j :: from <= j < k ==> KeyGapOrder(j) !in failing
  }

  lemma {:induction false} FirstGapIsFirst(failing: seq<Signal>, from: nat) returns (k: nat)
    requires from <= 9
    ensures FirstGap(failing, from).None? ==> forall j :: from <= j < 9 ==> KeyGapOrder(j) !in failing
    ensures FirstGap(failing, from).Some? ==>
        FirstAt(failing, from, k) && FirstGap(failing, from).value == KeyGapOrder(k)
    decreases 9 - from
  {
    k := from;
    if from < 9 && KeyGapOrder(from) !in failing { k := FirstGapIsFirst(failing, from + 1); }
  }

  lemma StructuralComesFirst(s: Signal) returns (m: nat)
    requires Structural(s)
    ensures m < 7 && KeyGapOrder(m) == s
  {
    m := if s.MissingEnforcementSignal? then 0 else if s.MissingLineage? then 1 else if s.MissingReplay? then 2
      else if s.MissingObservability? then 3 else if s.MissingControl? then 4 else if s.MissingEval? then 5 else 6;
  }

  lemma OrderIsStructuralFirst(k: nat)
    requires k < 7
    ensures Structural(KeyGapOrder(k))
  {
  }

  /** The key gap is the first signal of the order among the failing ones, or else the first failing one; it is a
      structural one whenever any is. */
  lemma KeyGapIsWorst(failing: seq<Signal>)
    ensures KeyGap(failing).None? <==> failing == []
    ensures failing != [] ==>
      || (exists k :: FirstAt(failing, 0, k) && KeyGap(failing) == Some(KeyGapOrder(k)))
      || (KeyGap(failing) == Some(failing[0]) && forall j: nat :: j < 9 ==> KeyGapOrder(j) !in failing)
    ensures StructuralIn(failing) != [] ==> KeyGap(failing).Some? && Structural(KeyGap(failing).value)
  {
    var k := FirstGapIsFirst(failing, 0);
    StructuralSome(failing);
    if StructuralIn(failing) != [] {
      var i :| 0 <= i < |failing| && Structural(failing[i]);
      var m := StructuralComesFirst(failing[i]);
      assert FirstGap(failing, 0).Some?;
      assert k <= m;
      OrderIsStructuralFirst(k);
    }
  }
}
