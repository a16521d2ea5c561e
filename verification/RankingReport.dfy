/** Projecting the priority artifact onto the registry's ranking universe (scripts/build_d3l_ranking_report.py). */
module RankingReport {
  import opened Wrappers
  import opened Ordering

  /** An entry of the priority artifact: not an object naming a system by a string, or one that does.
      The rank is there when it is an integer; `details` stands for the fields copied as they are. */
  datatype Entry = Unnamed | Named(id: string, rank: Option<int>, details: string)

  datatype Row = Row(rank: Option<int>, id: string, details: string, inArtifact: bool)

  datatype Priority = Priority(globalRanked: seq<Entry>, top5: seq<Entry>)

  datatype Reason = PriorityArtifactMissing | ContractMissing

  datatype Report =
    | FailClosed(blocking: seq<Reason>)
    | Report(universeSize: nat, top3: seq<Row>, top10: seq<Row>, full: seq<Row>, excluded: seq<string>,
      missing: seq<string>)

  /** `_row_from_artifact` */
  function RowOf(e: Entry, fallback: nat): Row
    requires e.Named?
  {
    Row(Some(if e.rank.Some? then e.rank.value else fallback), e.id, e.details, true)
  }

  /** `_missing_row` */
  function MissingRow(id: string): Row { Row(None, id, "", false) }

  function MissingRows(ids: seq<string>): (r: seq<Row>)
    ensures |r| == |ids| && forall k :: 0 <= k < |r| ==> r[k] == MissingRow(ids[k])
  {
    seq(|ids|, k requires 0 <= k < |ids| => MissingRow(ids[k]))
  }

  function Ids(rows: seq<Row>): (r: seq<string>)
    ensures |r| == |rows| && forall k :: 0 <= k < |r| ==> r[k] == rows[k].id
  {
    seq(|rows|, k requires 0 <= k < |rows| => rows[k].id)
  }

  function Source(p: Priority): seq<Entry> { if p.globalRanked != [] then p.globalRanked else p.top5 }

  // --------------------------------------------------------------- the projection

  predicate Admits(e: Entry, universe: set<string>, seen: set<string>) {
    e.Named? && e.id in universe && e.id !in seen
  }

  /** The ids of the entries in the universe. */
  function SeenIn(source: seq<Entry>, universe: set<string>): set<string> {
    set e | e in source && e.Named? && e.id in universe :: e.id
  }

  function Ranked(source: seq<Entry>, universe: set<string>): seq<Row> {
    if source == [] then []
    else
      var before, e := source[..|source| - 1], source[|source| - 1];
      var rows := Ranked(before, universe);
      if Admits(e, universe, SeenIn(before, universe)) then rows + [RowOf(e, |rows| + 1)] else rows
  }

  function Excluded(source: seq<Entry>, universe: set<string>): seq<string> {
    if source == [] then []
    else
      var e := source[|source| - 1];
      Excluded(source[..|source| - 1], universe) + (if e.Named? && e.id !in universe then [e.id] else [])
  }

  function Missing(universe: seq<string>, seen: set<string>): seq<string> {
    if universe == [] then []
    else
      var id := universe[|universe| - 1];
      Missing(universe[..|universe| - 1], seen) + (if id in seen then [] else [id])
  }

  function InArtifact(rows: seq<Row>): seq<Row> {
    if rows == [] then []
    else InArtifact(rows[..|rows| - 1]) + (if rows[|rows| - 1].inArtifact then [rows[|rows| - 1]] else [])
  }

  function Top(rows: seq<Row>, n: nat): seq<Row> { if |rows| <= n then rows else rows[..n] }

  function Full(source: seq<Entry>, universe: seq<string>): seq<Row> {
    Ranked(source, SetOf(universe)) + MissingRows(Missing(universe, SeenIn(source, SetOf(universe))))
  }

  function ReportOf(source: seq<Entry>, universe: seq<string>): Report {
    var ranked := InArtifact(Full(source, universe));
    Report(|universe|, Top(ranked, 3), Top(ranked, 10), Full(source, universe),
           Excluded(source, SetOf(universe)), Missing(universe, SeenIn(source, SetOf(universe))))
  }

  function RankingReport(priority: Option<Priority>, universe: Option<seq<string>>): Report {
    if priority.None? || universe.None? then
      FailClosed((if priority.None? then [PriorityArtifactMissing] else [])
        + (if universe.None? then [ContractMissing] else []))
    else ReportOf(Source(priority.value), universe.value)
  }

  lemma SeenStep(source: seq<Entry>, universe: set<string>, i: nat)
    requires i < |source|
    ensures SeenIn(source[..i + 1], universe) == SeenIn(source[..i], universe)
            + (if source[i].Named? && source[i].id in universe then {source[i].id} else {})
    ensures source[..i + 1][..i] == source[..i] && source[..|source|] == source
  {
    assert source[..i + 1] == source[..i] + [source[i]];
  }

  method Admit(source: seq<Entry>, universe: set<string>)
    returns (admitted: seq<Row>, excluded: seq<string>, seen: set<string>)
    ensures admitted == Ranked(source, universe)
    ensures excluded == Excluded(source, universe)
    ensures seen == SeenIn(source, universe)
  {
    admitted, excluded, seen := [], [], {};
    var runningRank := 0;
    for i := 0 to |source|
      invariant admitted == Ranked(source[..i], universe) && runningRank == |admitted|
      invariant excluded == Excluded(source[..i], universe)
      invariant seen == SeenIn(source[..i], universe)
    {
      SeenStep(source, universe, i);
      var e := source[i];
      if e.Unnamed? || e.id in seen { continue; }
      if e.id !in universe {
        excluded := excluded + [e.id];
        continue;
      }
      seen := seen + {e.id};
      runningRank := runningRank + 1;
      admitted := admitted + [RowOf(e, runningRank)];
    }
    assert source[..|source|] == source;
  }

  method AppendMissing(universe: seq<string>, seen: set<string>, ranked: seq<Row>)
    returns (admitted: seq<Row>, missing: seq<string>)
    ensures missing == Missing(universe, seen)
    ensures admitted == ranked + MissingRows(missing)
  {
    admitted, missing := ranked, [];
    for i := 0 to |universe|
      invariant missing == Missing(universe[..i], seen)
      invariant admitted == ranked + MissingRows(missing)
    {
      assert universe[..i + 1][..i] == universe[..i];
      if universe[i] !in seen {
        missing := missing + [universe[i]];
        admitted := admitted + [MissingRow(universe[i])];
      }
    }
    assert universe[..|universe|] == universe;
  }

  /** `build_ranking_report` */
  method BuildRankingReport(priority: Option<Priority>, universe: Option<seq<string>>) returns (r: Report)
    ensures r == RankingReport(priority, universe)
  {
    var blocking: seq<Reason> := [];
    if priority.None? { blocking := blocking + [PriorityArtifactMissing]; }
    if universe.None? { blocking := blocking + [ContractMissing]; }
    if blocking != [] { return FailClosed(blocking); }
    var ids := universe.value;
    var ranked, excluded, seen := Admit(Source(priority.value), SetOf(ids));
    var admitted, missing := AppendMissing(ids, seen, ranked);
    var inArtifact := InArtifact(admitted);
    r := Report(|ids|, Top(inArtifact, 3), Top(inArtifact, 10), admitted, excluded, missing);
  }

  // ------------------------------------------------------------ what the report holds

  /** Entry i is in the universe and no earlier entry names the same system. */
  ghost predicate IsFirst(source: seq<Entry>, universe: set<string>, i: int) {
    0 <= i < |source| && Admits(source[i], universe, SeenIn(source[..i], universe))
  }

  /** The rows are made from the entries at the listed positions: the first of each system, in source order, ranked as
      the entry says or else by position. */
  ghost predicate Projects(source: seq<Entry>, universe: set<string>, at: seq<int>, rows: seq<Row>) {
    && |at| == |rows|
    && (forall k :: 0 <= k < |at| ==> IsFirst(source, universe, at[k]) && rows[k] == RowOf(source[at[k]], k + 1))
    && (forall k, m :: 0 <= k < m < |at| ==> at[k] < at[m])
    && (forall i {:trigger IsFirst(source, universe, i)} :: IsFirst(source, universe, i) ==> i in at)
  }

  ghost function Firsts(source: seq<Entry>, universe: set<string>): seq<int> {
    if source == [] then []
    else
      var n := |source| - 1;
      Firsts(source[..n], universe) + (if Admits(source[n], universe, SeenIn(source[..n], universe)) then [n] else [])
  }

  lemma FirstExtends(source: seq<Entry>, universe: set<string>, i: int)
    requires source != []
    ensures i < |source| - 1 ==> (IsFirst(source, universe, i) <==> IsFirst(source[..|source| - 1], universe, i))
  {
    if 0 <= i < |source| - 1 { assert source[..|source| - 1][..i] == source[..i]; }
  }

  lemma {:induction false} RankedProjects(source: seq<Entry>, universe: set<string>)
    ensures Projects(source, universe, Firsts(source, universe), Ranked(source, universe))
  {
    if source != [] {
      var n := |source| - 1;
      var before := source[..n];
      var at := Firsts(before, universe);
      RankedProjects(before, universe);
      forall k | 0 <= k < |at| ensures IsFirst(source, universe, at[k]) {
        FirstExtends(source, universe, at[k]);
        assert IsFirst(before, universe, at[k]);
      }
      forall i | IsFirst(source, universe, i) ensures i in Firsts(source, universe) {
        FirstExtends(source, universe, i);
        assert i < n ==> i in at;
      }
    }
  }

  lemma {:induction false} RankedIds(source: seq<Entry>, universe: set<string>)
    ensures Distinct(Ids(Ranked(source, universe)))
    ensures forall x :: x in Ids(Ranked(source, universe)) <==> x in SeenIn(source, universe)
  {
    if source != [] {
      var n := |source| - 1;
      RankedIds(source[..n], universe);
      SeenStep(source, universe, n);
      var before, rows := Ids(Ranked(source[..n], universe)), Ids(Ranked(source, universe));
      assert rows == if Admits(source[n], universe, SeenIn(source[..n], universe)) then before + [source[n].id]
          else before;
    }
  }

  lemma {:induction false} MissingOnce(universe: seq<string>, seen: set<string>, x: string)
    ensures multiset(Missing(universe, seen))[x] == if x in seen then 0 else multiset(universe)[x]
  {
    if universe != [] {
      var before, id := universe[..|universe| - 1], universe[|universe| - 1];
      MissingOnce(before, seen, x);
      assert universe == before + [id];
      assert multiset(universe) == multiset(before) + multiset{id};
      assert multiset(Missing(universe, seen)) == multiset(Missing(before, seen))
          + (if id in seen then multiset{} else multiset{id});
    }
  }

  lemma {:induction false} RankedInArtifact(rows: seq<Row>, ids: seq<string>)
    requires forall k :: 0 <= k < |rows| ==> rows[k].inArtifact
    ensures InArtifact(rows + MissingRows(ids)) == rows
    decreases |rows| + |ids|
  {
    var all := rows + MissingRows(ids);
    if ids != [] {
      assert all[..|all| - 1] == rows + MissingRows(ids[..|ids| - 1]);
      RankedInArtifact(rows, ids[..|ids| - 1]);
    } else if rows != [] {
      assert all[..|all| - 1] == rows[..|rows| - 1] + MissingRows([]);
      RankedInArtifact(rows[..|rows| - 1], []);
      assert rows == rows[..|rows| - 1] + [rows[|rows| - 1]];
    }
  }

  /** The short lists are prefixes of the ranked rows, which open the full list. */
  lemma TopsArePrefixes(source: seq<Entry>, universe: seq<string>)
    ensures var r := ReportOf(source, universe);
            var ranked := Ranked(source, SetOf(universe));
            r.top3 <= r.top10 <= ranked <= r.full && |r.top3| == (if |ranked| < 3 then |ranked| else 3)
  {
    RankedProjects(source, SetOf(universe));
    RankedInArtifact(Ranked(source, SetOf(universe)), Missing(universe, SeenIn(source, SetOf(universe))));
  }

  lemma RankedCount(source: seq<Entry>, universe: set<string>, x: string)
    ensures multiset(Ids(Ranked(source, universe)))[x] == if x in SeenIn(source, universe) then 1 else 0
  {
    RankedIds(source, universe);
    DistinctCounts(Ids(Ranked(source, universe)), x);
  }

  lemma IdsAppend(rows: seq<Row>, ids: seq<string>)
    ensures Ids(rows + MissingRows(ids)) == Ids(rows) + ids
  {
  }

  /** Full counts a system once when it is ranked, and otherwise as often as the universe lists it. */
  lemma FullCounts(source: seq<Entry>, universe: seq<string>, x: string)
    ensures multiset(Ids(Full(source, universe)))[x]
            == if x in SeenIn(source, SetOf(universe)) then 1 else multiset(universe)[x]
  {
    var u := SetOf(universe);
    var rows, missing := Ranked(source, u), Missing(universe, SeenIn(source, u));
    RankedCount(source, u, x);
    MissingOnce(universe, SeenIn(source, u), x);
    IdsAppend(rows, missing);
    CountAppend(Ids(rows), missing, x);
  }

  /** The full list names the systems of the universe, each exactly once precisely when the universe repeats no
      system that the artifact leaves unranked. */
  lemma FullCoversUniverse(source: seq<Entry>, universe: seq<string>)
    ensures SameElements(Ids(Full(source, universe)), universe)
    ensures Distinct(Ids(Full(source, universe))) <==>
            forall x :: x !in SeenIn(source, SetOf(universe)) ==> multiset(universe)[x] <= 1
    ensures Distinct(universe) ==> multiset(Ids(Full(source, universe))) == multiset(universe)
  {
    var ids, seen := Ids(Full(source, universe)), SeenIn(source, SetOf(universe));
    forall x
      ensures multiset(ids)[x] == if x in seen then 1 else multiset(universe)[x]
      ensures x in ids <==> x in universe
    {
      FullCounts(source, universe, x);
      assert x in multiset(ids) <==> x in multiset(universe);
    }
    if forall x :: x !in seen ==> multiset(universe)[x] <= 1 { OnceMeansDistinct(ids); }
    if Distinct(ids) {
      forall x | x !in seen ensures multiset(universe)[x] <= 1 { DistinctCounts(ids, x); }
    }
    if Distinct(universe) {
      forall x ensures multiset(ids)[x] == multiset(universe)[x] { DistinctCounts(universe, x); }
    }
  }

  /** The ids of the universe outside `seen`, at the listed increasing positions. */
  ghost predicate Leaves(universe: seq<string>, seen: set<string>, at: seq<int>, missing: seq<string>) {
    && |at| == |missing|
    && (forall k :: 0 <= k < |at| ==> 0 <= at[k] < |universe| && missing[k] == universe[at[k]])
    && (forall k, m :: 0 <= k < m < |at| ==> at[k] < at[m])
    && (forall i :: 0 <= i < |universe| ==> (i in at <==> universe[i] !in seen))
  }

  lemma LeavesOneMore(universe: seq<string>, seen: set<string>, at: seq<int>, missing: seq<string>, id: string)
    requires Leaves(universe, seen, at, missing)
    ensures id in seen ==> Leaves(universe + [id], seen, at, missing)
    ensures id !in seen ==> Leaves(universe + [id], seen, at + [|universe|], missing + [id])
  {
    assert |universe| !in at;
  }

  /** After the ranked rows come the remaining systems, in the order of the universe. */
  lemma {:induction false} MissingInUniverseOrder(universe: seq<string>, seen: set<string>) returns (at: seq<int>)
    ensures Leaves(universe, seen, at, Missing(universe, seen))
  {
    at := [];
    if universe != [] {
      var n := |universe| - 1;
      at := MissingInUniverseOrder(universe[..n], seen);
      LeavesOneMore(universe[..n], seen, at, Missing(universe[..n], seen), universe[n]);
      assert universe == universe[..n] + [universe[n]];
      if universe[n] !in seen { at := at + [n]; }
    }
  }

  /** An excluded id is exactly one the artifact names outside the universe. */
  lemma {:induction false} ExcludedIff(source: seq<Entry>, universe: set<string>, x: string)
    ensures x in Excluded(source, universe) <==> x !in universe && exists e :: e in source && e.Named? && e.id == x
  {
    if source != [] {
      var init, last := source[..|source| - 1], source[|source| - 1];
      ExcludedIff(init, universe, x);
      assert source == init + [last];
      assert (exists e :: e in source && e.Named? && e.id == x) <==>
        (exists e :: e in init && e.Named? && e.id == x) || (last.Named? && last.id == x);
    }
  }
}
