/** Whether the top three ranked systems are the least mature (scripts/build_d3l_rank_maturity_alignment.py), and the
    chain from one registry contract through both reports. */
module RankMaturityAlignment {
  import opened Wrappers
  import opened Ordering
  import RegistryContract
  import RankingReport
  import MaturityReport

  datatype Warning = AboveLowest(ids: seq<string>, lowest: nat) | NoMaturityData(ids: seq<string>)

  datatype Placed = Placed(id: string, level: Option<nat>)

  datatype Alignment = Alignment(
    ok: bool, warning: Option<Warning>, above: seq<string>, lowest: Option<nat>, levels: seq<Placed>,
      missing: seq<string>)

  function LevelIn(rows: seq<MaturityReport.Row>, id: string): Option<nat> {
    if rows == [] then None
    else if rows[|rows| - 1].id == id then Some(rows[|rows| - 1].level)
    else LevelIn(rows[..|rows| - 1], id)
  }

  function Lowest(rows: seq<MaturityReport.Row>): nat
    requires rows != []
  {
    if |rows| == 1 then rows[0].level
    else
      var rest := Lowest(rows[..|rows| - 1]);
      if rows[|rows| - 1].level < rest then rows[|rows| - 1].level else rest
  }

  function Levels(top3: seq<RankingReport.Row>, rows: seq<MaturityReport.Row>): (r: seq<Placed>)
    ensures |r| == |top3| && forall k :: 0 <= k < |r| ==> r[k] == Placed(top3[k].id, LevelIn(rows, top3[k].id))
  {
    seq(|top3|, k requires 0 <= k < |top3| => Placed(top3[k].id, LevelIn(rows, top3[k].id)))
  }

  function Above(levels: seq<Placed>, lowest: nat): seq<string> {
    if levels == [] then []
    else
      (if levels[0].level.Some? && levels[0].level.value > lowest then [levels[0].id] else [])
        + Above(levels[1..], lowest)
  }

  function Unplaced(levels: seq<Placed>): seq<string> {
    if levels == [] then []
    else (if levels[0].level.None? then [levels[0].id] else []) + Unplaced(levels[1..])
  }

  /** `evaluate` */
  function Evaluate(top3: seq<RankingReport.Row>, rows: seq<MaturityReport.Row>): Alignment {
    if top3 == [] || rows == [] then Alignment(true, None, [], None, [], [])
    else
      var lowest := Lowest(rows);
      var levels := Levels(top3, rows);
      var above, missing := Above(levels, lowest), Unplaced(levels);
      var warning := if above != [] then Some(AboveLowest(above, lowest))
                     else if missing != [] then Some(NoMaturityData(missing)) else None;
      Alignment(above == [] && missing == [], warning, above, Some(lowest), levels, missing)
  }

  // ------------------------------------------------------------------- on any inputs

  lemma {:induction false} LowestIsLeast(rows: seq<MaturityReport.Row>)
    requires rows != []
    ensures forall k :: 0 <= k < |rows| ==> Lowest(rows) <= rows[k].level
    ensures exists k :: 0 <= k < |rows| && Lowest(rows) == rows[k].level
  {
    if |rows| > 1 {
      LowestIsLeast(rows[..|rows| - 1]);
    } else {
      assert Lowest(rows) == rows[0].level;
    }
  }

  lemma {:induction false} LevelInRows(rows: seq<MaturityReport.Row>, id: string)
    ensures LevelIn(rows, id).None? <==> forall k :: 0 <= k < |rows| ==> rows[k].id != id
    ensures LevelIn(rows, id).Some? ==>
        exists k :: 0 <= k < |rows| && rows[k].id == id && rows[k].level == LevelIn(rows, id).value
  {
    if rows != [] && rows[|rows| - 1].id != id { LevelInRows(rows[..|rows| - 1], id); }
  }

  lemma {:induction false} NoneAboveIff(levels: seq<Placed>, lowest: nat)
    ensures Above(levels, lowest) == [] && Unplaced(levels) == [] <==>
            forall k :: 0 <= k < |levels| ==> levels[k].level.Some? && levels[k].level.value <= lowest
    ensures Unplaced(levels) == [] <==> forall k :: 0 <= k < |levels| ==> levels[k].level.Some?
  {
    if levels != [] {
      NoneAboveIff(levels[1..], lowest);
      assert levels == [levels[0]] + levels[1..];
    }
  }

  /** Every top-three system has maturity data and none is above the lowest level in the report. */
  ghost predicate Aligned(top3: seq<RankingReport.Row>, rows: seq<MaturityReport.Row>)
    requires rows != []
  {
    forall k :: 0 <= k < |top3| ==> LevelIn(rows, top3[k].id) == Some(Lowest(rows))
  }

  lemma PlacedAtLowest(rows: seq<MaturityReport.Row>, id: string)
    requires rows != []
    ensures LevelIn(rows, id) == Some(Lowest(rows)) <==>
            LevelIn(rows, id).Some? && LevelIn(rows, id).value <= Lowest(rows)
  {
    LevelInRows(rows, id);
    LowestIsLeast(rows);
  }

  lemma AlignedIff(top3: seq<RankingReport.Row>, rows: seq<MaturityReport.Row>)
    requires rows != []
    ensures Aligned(top3, rows) <==>
            Above(Levels(top3, rows), Lowest(rows)) == [] && Unplaced(Levels(top3, rows)) == []
  {
    NoneAboveIff(Levels(top3, rows), Lowest(rows));
    forall k | 0 <= k < |top3|
      ensures LevelIn(rows, top3[k].id) == Some(Lowest(rows)) <==>
              Levels(top3, rows)[k].level.Some? && Levels(top3, rows)[k].level.value <= Lowest(rows)
    {
      PlacedAtLowest(rows, top3[k].id);
    }
  }

  /** With non-empty inputs the alignment is ok exactly when every top-three system sits at the lowest level; a warning
      is given exactly when it is not ok. */
  lemma OkIff(top3: seq<RankingReport.Row>, rows: seq<MaturityReport.Row>)
    requires top3 != [] && rows != []
    ensures Evaluate(top3, rows).ok <==> Aligned(top3, rows)
    ensures Evaluate(top3, rows).ok <==> Evaluate(top3, rows).warning.None?
  {
    AlignedIff(top3, rows);
  }

  // --------------------------------------------------------------- from one contract

  function Top3(g: RegistryContract.Registry, source: seq<RankingReport.Entry>): seq<RankingReport.Row> {
    RankingReport.ReportOf(source, RegistryContract.BuildContract(g).rankingUniverse).top3
  }

  function MaturityRows(g: RegistryContract.Registry, inputs: MaturityReport.Inputs): seq<MaturityReport.Row> {
    MaturityReport.Rows(inputs, RegistryContract.BuildContract(g).maturityUniverse)
  }

  lemma Top3InUniverse(g: RegistryContract.Registry, source: seq<RankingReport.Entry>, k: nat)
    requires k < |Top3(g, source)|
    ensures Top3(g, source)[k].id in g.active
  {
    var universe := RegistryContract.BuildContract(g).rankingUniverse;
    var full := RankingReport.Full(source, universe);
    RankingReport.TopsArePrefixes(source, universe);
    RankingReport.FullCoversUniverse(source, universe);
    SortedRearranges(g.active);
    assert full[k] == Top3(g, source)[k] && RankingReport.Ids(full)[k] in RankingReport.Ids(full);
  }

  lemma RatedByItsOwnRow(g: RegistryContract.Registry, inputs: MaturityReport.Inputs, id: string)
    requires id in g.active
    ensures LevelIn(MaturityRows(g, inputs), id) == Some(MaturityReport.RowOf(inputs, id).level)
  {
    var universe, rows := RegistryContract.BuildContract(g).maturityUniverse, MaturityRows(g, inputs);
    SortedRearranges(g.active);
    MaturityReport.RowsAt(inputs, universe);
    var k :| 0 <= k < |universe| && universe[k] == id;
    LevelInRows(rows, id);
    assert rows[k].id == id;
  }

  lemma Top3Rated(g: RegistryContract.Registry, source: seq<RankingReport.Entry>, inputs: MaturityReport.Inputs)
    ensures forall k :: 0 <= k < |Top3(g, source)| ==> Top3(g, source)[k].id in g.active
    ensures forall k :: 0 <= k < |Top3(g, source)| ==>
      LevelIn(MaturityRows(g, inputs), Top3(g, source)[k].id)
        == Some(MaturityReport.RowOf(inputs, Top3(g, source)[k].id).level)
  {
    forall k | 0 <= k < |Top3(g, source)|
      ensures Top3(g, source)[k].id in g.active
      ensures LevelIn(MaturityRows(g, inputs), Top3(g, source)[k].id)
          == Some(MaturityReport.RowOf(inputs, Top3(g, source)[k].id).level)
    {
      Top3InUniverse(g, source, k);
      RatedByItsOwnRow(g, inputs, Top3(g, source)[k].id);
    }
  }

  /** The lowest level in the report is the lowest level of an active system. */
  lemma LowestIsOfActive(g: RegistryContract.Registry, inputs: MaturityReport.Inputs)
    requires g.active != []
    ensures MaturityRows(g, inputs) != []
    ensures forall x :: x in g.active ==> Lowest(MaturityRows(g, inputs)) <= MaturityReport.RowOf(inputs, x).level
    ensures exists x :: x in g.active && Lowest(MaturityRows(g, inputs)) == MaturityReport.RowOf(inputs, x).level
  {
    var universe, rows := RegistryContract.BuildContract(g).maturityUniverse, MaturityRows(g, inputs);
    SortedRearranges(g.active);
    MaturityReport.RowsAt(inputs, universe);
    assert g.active[0] in universe && |rows| == |universe|;
    LowestIsLeast(rows);
    var least :| 0 <= least < |rows| && Lowest(rows) == rows[least].level;
    assert rows[least] == MaturityReport.RowOf(inputs, universe[least]) && universe[least] in g.active;
    forall x | x in g.active ensures Lowest(rows) <= MaturityReport.RowOf(inputs, x).level {
      var j :| 0 <= j < |universe| && universe[j] == x;
      assert rows[j] == MaturityReport.RowOf(inputs, x);
    }
  }

  /** No active system is less mature than a system of the list. */
  ghost predicate LeastMature(
      top3: seq<RankingReport.Row>, g: RegistryContract.Registry, inputs: MaturityReport.Inputs) {
    forall k, x :: 0 <= k < |top3| && x in g.active ==>
      MaturityReport.RowOf(inputs, top3[k].id).level <= MaturityReport.RowOf(inputs, x).level
  }

  /** When both reports come from one contract, no top-three system lacks maturity data, and the alignment is ok exactly
      when no active system is less mature than a top-three one. */
  lemma ChainAligns(g: RegistryContract.Registry, source: seq<RankingReport.Entry>, inputs: MaturityReport.Inputs)
    ensures Evaluate(Top3(g, source), MaturityRows(g, inputs)).missing == []
    ensures Evaluate(Top3(g, source), MaturityRows(g, inputs)).ok <==> LeastMature(Top3(g, source), g, inputs)
  {
    var top3, rows := Top3(g, source), MaturityRows(g, inputs);
    Top3Rated(g, source, inputs);
    if top3 != [] {
      assert top3[0].id in g.active;
      LowestIsOfActive(g, inputs);
      RatedAligns(top3, rows, g, inputs);
    }
  }

  lemma RatedAligns(
    top3: seq<RankingReport.Row>, rows: seq<MaturityReport.Row>, g: RegistryContract.Registry,
      inputs: MaturityReport.Inputs)
    requires top3 != [] && rows != []
    requires forall k :: 0 <= k < |top3| ==> top3[k].id in g.active
    requires forall k :: 0 <= k < |top3| ==>
        LevelIn(rows, top3[k].id) == Some(MaturityReport.RowOf(inputs, top3[k].id).level)
    requires forall x :: x in g.active ==> Lowest(rows) <= MaturityReport.RowOf(inputs, x).level
    requires exists x :: x in g.active && Lowest(rows) == MaturityReport.RowOf(inputs, x).level
    ensures Evaluate(top3, rows).missing == []
    ensures Evaluate(top3, rows).ok <==> LeastMature(top3, g, inputs)
  {
    var levels := Levels(top3, rows);
    NoneAboveIff(levels, Lowest(rows));
    assert forall k :: 0 <= k < |levels| ==> levels[k] == Placed(top3[k].id, LevelIn(rows, top3[k].id));
    OkIff(top3, rows);
    var least :| least in g.active && Lowest(rows) == MaturityReport.RowOf(inputs, least).level;
    assert LeastMature(top3, g, inputs) ==>
      forall k :: 0 <= k < |top3| ==>
        MaturityReport.RowOf(inputs, top3[k].id).level == MaturityReport.RowOf(inputs, least).level;
  }

  /** A stale priority artifact never turns an aligned chain into a misaligned one. */
  lemma StalenessKeepsAlignment(
      g: RegistryContract.Registry, source: seq<RankingReport.Entry>, inputs: MaturityReport.Inputs)
    requires Evaluate(Top3(g, source), MaturityRows(g, inputs.(priorityFresh := true))).ok
    ensures Evaluate(Top3(g, source), MaturityRows(g, inputs.(priorityFresh := false))).ok
  {
    ChainAligns(g, source, inputs.(priorityFresh := true));
    ChainAligns(g, source, inputs.(priorityFresh := false));
    forall x ensures MaturityReport.RowOf(inputs.(priorityFresh := false), x).level
      == var l := MaturityReport.RowOf(inputs.(priorityFresh := true), x).level; if l == 4 then 3 else l
    {
      MaturityReport.FreshnessOnlyCaps(inputs, x);
    }
  }
}
