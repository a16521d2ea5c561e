/** The source authority indexes (scripts/build_source_indexes.py): duplicate check, obligation index, component map. */
module SourceIndexes {
  import opened Ordering

  /** A traceability row; `rest` is what the index copies through unread. */
  datatype Row = Row(obligationId: string, traceId: string, componentId: string, duplicateAllowed: bool,
    duplicateReason: string, rest: string)

  datatype Artifact = Artifact(sourceId: string, rows: seq<Row>)

  /** A row of the obligation index: a traceability row with the source it came from. */
  datatype Entry = Entry(sourceId: string, row: Row)

  function RowEntries(sourceId: string, rows: seq<Row>): seq<Entry> {
    if rows == [] then [] else RowEntries(sourceId, rows[..|rows| - 1]) + [Entry(sourceId, rows[|rows| - 1])]
  }

  /** Every row with its source, in the order of the artifacts. */
  function Entries(artifacts: seq<Artifact>): seq<Entry> {
    if artifacts == [] then []
    else
      var last := artifacts[|artifacts| - 1];
      Entries(artifacts[..|artifacts| - 1]) + RowEntries(last.sourceId, last.rows)
  }

  // ----------------------------------------------------------------- duplicate check

  predicate Documented(e: Entry) { e.row.duplicateAllowed && e.row.duplicateReason != "" }

  function OfObligation(id: string, entries: seq<Entry>): seq<Entry> {
    if entries == [] then []
    else
      var last := entries[|entries| - 1];
      OfObligation(id, entries[..|entries| - 1]) + (if last.row.obligationId == id then [last] else [])
  }

  /** An obligation id with several entries, not all of them documented as duplicates. */
  predicate Undocumented(entries: seq<Entry>) {
    |entries| > 1 && exists e :: e in entries && !Documented(e)
  }

  type Seen = map<string, seq<Entry>>

  function At(seen: Seen, id: string): seq<Entry> { if id in seen then seen[id] else [] }

  ghost predicate Groups(seen: Seen, entries: seq<Entry>) {
    forall id :: At(seen, id) == OfObligation(id, entries)
  }

  lemma GroupsStep(seen: Seen, entries: seq<Entry>, e: Entry)
    requires Groups(seen, entries)
    ensures Groups(seen[e.row.obligationId := At(seen, e.row.obligationId) + [e]], entries + [e])
  {
    var after := seen[e.row.obligationId := At(seen, e.row.obligationId) + [e]];
    assert (entries + [e])[..|entries|] == entries;
    forall id ensures At(after, id) == OfObligation(id, entries + [e]) {
      assert At(seen, id) == OfObligation(id, entries);
    }
  }

  lemma RowEntriesStep(sourceId: string, rows: seq<Row>, i: nat)
    requires i < |rows|
    ensures RowEntries(sourceId, rows[..i + 1]) == RowEntries(sourceId, rows[..i]) + [Entry(sourceId, rows[i])]
  {
    assert rows[..i + 1][..i] == rows[..i];
  }

  method Group(seen: Seen, sourceId: string, rows: seq<Row>, ghost before: seq<Entry>) returns (r: Seen)
    requires Groups(seen, before)
    ensures Groups(r, before + RowEntries(sourceId, rows))
  {
    r := seen;
    assert before + [] == before;
    for i := 0 to |rows|
      invariant Groups(r, before + RowEntries(sourceId, rows[..i]))
    {
      ghost var sofar := before + RowEntries(sourceId, rows[..i]);
      RowEntriesStep(sourceId, rows, i);
      var e := Entry(sourceId, rows[i]);
      GroupsStep(r, sofar, e);
      assert before + (RowEntries(sourceId, rows[..i]) + [e]) == sofar + [e];
      var id := rows[i].obligationId;
      r := r[id := At(r, id) + [e]];
    }
    assert rows[..|rows|] == rows;
  }

  method GroupAll(artifacts: seq<Artifact>) returns (seen: Seen)
    ensures Groups(seen, Entries(artifacts))
  {
    seen := map[];
    for i := 0 to |artifacts|
      invariant Groups(seen, Entries(artifacts[..i]))
    {
      assert artifacts[..i + 1][..i] == artifacts[..i];
      seen := Group(seen, artifacts[i].sourceId, artifacts[i].rows, Entries(artifacts[..i]));
    }
    assert artifacts[..|artifacts|] == artifacts;
  }

  /** `_check_duplicate_obligation_ids`: the ids it reports; the build goes on exactly when there are none. */
  method CheckDuplicates(artifacts: seq<Artifact>) returns (errors: seq<string>)
    ensures forall id :: id in errors <==> Duplicated(id, Entries(artifacts))
  {
    var seen := GroupAll(artifacts);
    var ids := SortedStrings(seen.Keys);
    SortedStringsLists(seen.Keys);
    errors := Repeats(seen, ids);
    forall id ensures id in errors <==> Duplicated(id, Entries(artifacts)) {
      GroupDuplicated(seen, Entries(artifacts), id);
    }
  }

  method Repeats(seen: Seen, ids: seq<string>) returns (errors: seq<string>)
    ensures forall id :: id in errors <==> id in ids && Undocumented(At(seen, id))
  {
    errors := [];
    for i := 0 to |ids|
      invariant forall id :: id in errors <==> id in ids[..i] && Undocumented(At(seen, id))
    {
      Prefix(ids, i);
      if Undocumented(At(seen, ids[i])) { errors := errors + [ids[i]]; }
    }
    assert ids[..|ids|] == ids;
  }

  lemma GroupDuplicated(seen: Seen, entries: seq<Entry>, id: string)
    requires Groups(seen, entries)
    ensures id in seen && Undocumented(At(seen, id)) <==> Duplicated(id, entries)
  {
    assert At(seen, id) == OfObligation(id, entries);
    UndocumentedIff(id, entries);
  }

  /** The entries of an obligation are those at the listed increasing positions. */
  ghost predicate Located(id: string, entries: seq<Entry>, at: seq<int>, found: seq<Entry>) {
    && |at| == |found|
    && (forall k :: 0 <= k < |at| ==> 0 <= at[k] < |entries| && found[k] == entries[at[k]])
    && (forall k, m :: 0 <= k < m < |at| ==> at[k] < at[m])
    && (forall i :: 0 <= i < |entries| ==> (i in at <==> entries[i].row.obligationId == id))
  }

  lemma LocatedOneMore(id: string, entries: seq<Entry>, at: seq<int>, found: seq<Entry>, e: Entry)
    requires Located(id, entries, at, found)
    ensures e.row.obligationId == id ==> Located(id, entries + [e], at + [|entries|], found + [e])
    ensures e.row.obligationId != id ==> Located(id, entries + [e], at, found)
  {
    assert |entries| !in at;
  }

  lemma {:induction false} OfObligationAt(id: string, entries: seq<Entry>) returns (at: seq<int>)
    ensures Located(id, entries, at, OfObligation(id, entries))
  {
    at := [];
    if entries != [] {
      var n := |entries| - 1;
      at := OfObligationAt(id, entries[..n]);
      LocatedOneMore(id, entries[..n], at, OfObligation(id, entries[..n]), entries[n]);
      assert entries == entries[..n] + [entries[n]];
      if entries[n].row.obligationId == id { at := at + [n]; }
    }
  }

  /** The obligation stands at two positions of the entries, and is not documented as a duplicate at one of them. */
  ghost predicate Duplicated(id: string, entries: seq<Entry>) {
    exists i, j :: 0 <= i < |entries| && 0 <= j < |entries| && i != j
      && entries[i].row.obligationId == id && entries[j].row.obligationId == id && !Documented(entries[i])
  }

  lemma UndocumentedIff(id: string, entries: seq<Entry>)
    ensures Undocumented(OfObligation(id, entries)) <==> Duplicated(id, entries)
  {
    var found := OfObligation(id, entries);
    var at := OfObligationAt(id, entries);
    if Undocumented(found) {
      var k :| 0 <= k < |found| && !Documented(found[k]);
      var m := if k == 0 then 1 else 0;
      assert at[k] in at && at[m] in at && at[k] != at[m];
      assert entries[at[k]] == found[k] && entries[at[m]] == found[m];
    }
    if Duplicated(id, entries) {
      var i, j :| 0 <= i < |entries| && 0 <= j < |entries| && i != j
        && entries[i].row.obligationId == id && entries[j].row.obligationId == id && !Documented(entries[i]);
      assert i in at && j in at;
      var k :| 0 <= k < |at| && at[k] == i;
      var m :| 0 <= m < |at| && at[m] == j;
      assert found[k] == entries[i] && k != m;
    }
  }

  // ---------------------------------------------------------------- obligation index

  predicate ArtifactLeq(a: Artifact, b: Artifact) { StrLeq(a.sourceId, b.sourceId) }

  function RowKey(r: Row): seq<string> { [r.obligationId, r.traceId] }

  predicate RowLeq(a: Row, b: Row) { KeyLeq(RowKey(a), RowKey(b)) }

  function EntryKey(e: Entry): seq<string> { [e.row.obligationId, e.sourceId, e.row.traceId] }

  predicate EntryLeq(a: Entry, b: Entry) { KeyLeq(EntryKey(a), EntryKey(b)) }

  lemma Orders()
    ensures TotalPreorder(ArtifactLeq) && TotalPreorder(RowLeq) && TotalPreorder(EntryLeq)
  {
    StrOrder();
    KeyOrder();
    ArtifactOrder();
    RowOrder();
    EntryOrder();
  }

  lemma ArtifactOrder()
    ensures TotalPreorder(ArtifactLeq)
  {
    StrOrder();
    forall a, b ensures ArtifactLeq(a, b) || ArtifactLeq(b, a) {
      assert StrLeq(a.sourceId, b.sourceId) || StrLeq(b.sourceId, a.sourceId);
    }
    forall a, b, c | ArtifactLeq(a, b) && ArtifactLeq(b, c) ensures ArtifactLeq(a, c) {
      assert StrLeq(a.sourceId, b.sourceId) && StrLeq(b.sourceId, c.sourceId);
    }
  }

  lemma RowOrder()
    ensures TotalPreorder(RowLeq)
  {
    KeyOrder();
    forall a, b ensures RowLeq(a, b) || RowLeq(b, a) {
      assert KeyLeq(RowKey(a), RowKey(b)) || KeyLeq(RowKey(b), RowKey(a));
    }
    forall a, b, c | RowLeq(a, b) && RowLeq(b, c) ensures RowLeq(a, c) {
      assert KeyLeq(RowKey(a), RowKey(b)) && KeyLeq(RowKey(b), RowKey(c));
    }
  }

  lemma EntryOrder()
    ensures TotalPreorder(EntryLeq)
  {
    KeyOrder();
    forall a, b ensures EntryLeq(a, b) || EntryLeq(b, a) {
      assert KeyLeq(EntryKey(a), EntryKey(b)) || KeyLeq(EntryKey(b), EntryKey(a));
    }
    forall a, b, c | EntryLeq(a, b) && EntryLeq(b, c) ensures EntryLeq(a, c) {
      assert KeyLeq(EntryKey(a), EntryKey(b)) && KeyLeq(EntryKey(b), EntryKey(c));
    }
  }

  function RowsSorted(a: Artifact): Artifact { a.(rows := Sort(a.rows, RowLeq)) }

  function AllRowsSorted(artifacts: seq<Artifact>): seq<Artifact> {
    if artifacts == [] then []
    else AllRowsSorted(artifacts[..|artifacts| - 1]) + [RowsSorted(artifacts[|artifacts| - 1])]
  }

  function ObligationIndex(artifacts: seq<Artifact>): seq<Entry> {
    Sort(Entries(AllRowsSorted(Sort(artifacts, ArtifactLeq))), EntryLeq)
  }

  /** `_emit_obligation_index` */
  method EmitObligationIndex(artifacts: seq<Artifact>) returns (rows: seq<Entry>)
    ensures rows == ObligationIndex(artifacts)
  {
    rows := [];
    var sorted := Sort(artifacts, ArtifactLeq);
    for i := 0 to |sorted|
      invariant rows == Entries(AllRowsSorted(sorted[..i]))
    {
      Prefix(sorted, i);
      Snoc(AllRowsSorted(sorted[..i]), RowsSorted(sorted[i]));
      rows := AppendRows(rows, sorted[i].sourceId, Sort(sorted[i].rows, RowLeq));
    }
    assert sorted[..|sorted|] == sorted;
    rows := Sort(rows, EntryLeq);
  }

  method AppendRows(before: seq<Entry>, sourceId: string, listed: seq<Row>) returns (rows: seq<Entry>)
    ensures rows == before + RowEntries(sourceId, listed)
  {
    rows := before;
    AppendEmpty(before);
    for k := 0 to |listed|
      invariant rows == before + RowEntries(sourceId, listed[..k])
    {
      RowEntriesStep(sourceId, listed, k);
      AppendAssociates(before, RowEntries(sourceId, listed[..k]), [Entry(sourceId, listed[k])]);
      rows := rows + [Entry(sourceId, listed[k])];
    }
    assert listed[..|listed|] == listed;
  }

  lemma {:induction false} RowEntriesAppend(id: string, a: seq<Row>, b: seq<Row>)
    ensures RowEntries(id, a + b) == RowEntries(id, a) + RowEntries(id, b)
  {
    if b == [] {
      AppendEmpty(a);
    } else {
      var init, last := b[..|b| - 1], b[|b| - 1];
      RowEntriesAppend(id, a, init);
      AppendLast(a, b);
      AppendAssociates(RowEntries(id, a), RowEntries(id, init), [Entry(id, last)]);
    }
  }

  lemma {:induction false} EntriesAppend(a: seq<Artifact>, b: seq<Artifact>)
    ensures Entries(a + b) == Entries(a) + Entries(b)
  {
    if b == [] {
      AppendEmpty(a);
    } else {
      var init, last := b[..|b| - 1], b[|b| - 1];
      EntriesAppend(a, init);
      AppendLast(a, b);
      AppendAssociates(Entries(a), Entries(init), RowEntries(last.sourceId, last.rows));
    }
  }

  /** Rearranging rows rearranges their entries. */
  lemma {:induction false} RowEntriesPermute(id: string, a: seq<Row>, b: seq<Row>)
    requires multiset(a) == multiset(b)
    ensures multiset(RowEntries(id, a)) == multiset(RowEntries(id, b))
  {
    SameMultisetSameLength(a, b);
    if a != [] {
      var k := TakeOut(a, b);
      var rest := b[..k] + b[k + 1..];
      assert a == [a[0]] + a[1..];
      RowEntriesPermute(id, a[1..], rest);
      RowEntriesAppend(id, [a[0]], a[1..]);
      RowEntriesAppend(id, b[..k], [b[k]] + b[k + 1..]);
      RowEntriesAppend(id, [b[k]], b[k + 1..]);
      RowEntriesAppend(id, b[..k], b[k + 1..]);
    }
  }

  /** Rearranging artifacts rearranges their entries. */
  lemma {:induction false} EntriesPermute(a: seq<Artifact>, b: seq<Artifact>)
    requires multiset(a) == multiset(b)
    ensures multiset(Entries(a)) == multiset(Entries(b))
  {
    SameMultisetSameLength(a, b);
    if a != [] {
      var k := TakeOut(a, b);
      var rest := b[..k] + b[k + 1..];
      assert a == [a[0]] + a[1..];
      EntriesPermute(a[1..], rest);
      EntriesAppend([a[0]], a[1..]);
      EntriesAppend(b[..k], [b[k]] + b[k + 1..]);
      EntriesAppend([b[k]], b[k + 1..]);
      EntriesAppend(b[..k], b[k + 1..]);
    }
  }

  lemma {:induction false} RowSortingKeepsEntries(artifacts: seq<Artifact>)
    ensures multiset(Entries(AllRowsSorted(artifacts))) == multiset(Entries(artifacts))
  {
    if artifacts != [] {
      var init, last := artifacts[..|artifacts| - 1], artifacts[|artifacts| - 1];
      RowSortingKeepsEntries(init);
      Orders();
      SortSorts(last.rows, RowLeq);
      RowEntriesPermute(last.sourceId, last.rows, Sort(last.rows, RowLeq));
      var done := AllRowsSorted(init);
      assert (done + [RowsSorted(last)])[..|done|] == done;
    }
  }

  /** The index conserves every traceability row, with its source, and lists them in (obligation, source, trace)
      order. */
  lemma IndexConservesRows(artifacts: seq<Artifact>)
    ensures multiset(ObligationIndex(artifacts)) == multiset(Entries(artifacts))
    ensures SortedBy(ObligationIndex(artifacts), EntryLeq)
  {
    Orders();
    var sorted := Sort(artifacts, ArtifactLeq);
    SortSorts(artifacts, ArtifactLeq);
    EntriesPermute(sorted, artifacts);
    RowSortingKeepsEntries(sorted);
    SortSorts(Entries(AllRowsSorted(sorted)), EntryLeq);
  }

  ghost predicate DistinctTriples(entries: seq<Entry>) {
    forall x, y :: x in entries && y in entries && EntryKey(x) == EntryKey(y) ==> x == y
  }

  /** With distinct (obligation, source, trace) triples, the index does not depend on the order of the artifacts. */
  lemma IndexOrderIndependent(a: seq<Artifact>, b: seq<Artifact>)
    requires multiset(a) == multiset(b)
    requires DistinctTriples(Entries(a))
    ensures ObligationIndex(a) == ObligationIndex(b)
  {
    Orders();
    KeyOrder();
    IndexConservesRows(a);
    IndexConservesRows(b);
    EntriesPermute(a, b);
    var x, y := ObligationIndex(a), ObligationIndex(b);
    SameMultisetSameLength(x, Entries(a));
    forall p, q | p in x && q in x && EntryLeq(p, q) && EntryLeq(q, p) ensures p == q {
      assert EntryKey(p) == EntryKey(q);
    }
    SortedUnique(x, y, EntryLeq);
  }

  // ------------------------------------------------------------------- component map

  datatype ComponentRow = ComponentRow(componentId: string, sourceIds: seq<string>, obligationIds: seq<string>)

  function Components(entries: seq<Entry>): set<string> {
    set e | e in entries :: e.row.componentId
  }

  function SourcesOf(entries: seq<Entry>, component: string): set<string> {
    set e | e in entries && e.row.componentId == component :: e.sourceId
  }

  function ObligationsOf(entries: seq<Entry>, component: string): set<string> {
    set e | e in entries && e.row.componentId == component :: e.row.obligationId
  }

  function ComponentOf(entries: seq<Entry>, component: string): ComponentRow {
    ComponentRow(component, SortedStrings(SourcesOf(entries, component)),
      SortedStrings(ObligationsOf(entries, component)))
  }

  /** The component map of a list of entries. */
  function ComponentMap(entries: seq<Entry>): (r: seq<ComponentRow>)
    ensures |r| == |SortedStrings(Components(entries))|
    ensures forall i :: 0 <= i < |r| ==> r[i] == ComponentOf(entries, SortedStrings(Components(entries))[i])
  {
    var ids := SortedStrings(Components(entries));
    seq(|ids|, i requires 0 <= i < |ids| => ComponentOf(entries, ids[i]))
  }

  type ComponentSets = map<string, (set<string>, set<string>)>

  ghost predicate Collects(m: ComponentSets, entries: seq<Entry>) {
    && m.Keys == Components(entries)
    && forall c :: c in m ==> m[c] == (SourcesOf(entries, c), ObligationsOf(entries, c))
  }

  function AddTo(m: ComponentSets, e: Entry): ComponentSets {
    var c := e.row.componentId;
    var (sources, obligations) := if c in m then m[c] else ({}, {});
    m[c := (sources + {e.sourceId}, obligations + {e.row.obligationId})]
  }

  lemma NoEntries(entries: seq<Entry>, c: string)
    requires c !in Components(entries)
    ensures SourcesOf(entries, c) == {} && ObligationsOf(entries, c) == {}
  {
    forall x | x in entries ensures x.row.componentId != c { assert x.row.componentId in Components(entries); }
  }

  lemma CollectsOneMore(m: ComponentSets, entries: seq<Entry>, e: Entry)
    requires Collects(m, entries)
    ensures Collects(AddTo(m, e), entries + [e])
  {
    var r := AddTo(m, e);
    assert Components(entries + [e]) == Components(entries) + {e.row.componentId};
    forall c | c in r ensures r[c] == (SourcesOf(entries + [e], c), ObligationsOf(entries + [e], c)) {
      if c == e.row.componentId {
        if c !in m { NoEntries(entries, c); }
        assert SourcesOf(entries + [e], c) == SourcesOf(entries, c) + {e.sourceId};
        assert ObligationsOf(entries + [e], c) == ObligationsOf(entries, c) + {e.row.obligationId};
      } else {
        assert SourcesOf(entries + [e], c) == SourcesOf(entries, c);
        assert ObligationsOf(entries + [e], c) == ObligationsOf(entries, c);
      }
    }
  }

  method CollectRows(m: ComponentSets, a: Artifact, ghost before: seq<Entry>) returns (r: ComponentSets)
    requires Collects(m, before)
    ensures Collects(r, before + RowEntries(a.sourceId, a.rows))
  {
    r := m;
    assert before + [] == before;
    for k := 0 to |a.rows|
      invariant Collects(r, before + RowEntries(a.sourceId, a.rows[..k]))
    {
      assert a.rows[..k + 1][..k] == a.rows[..k];
      var e := Entry(a.sourceId, a.rows[k]);
      CollectsOneMore(r, before + RowEntries(a.sourceId, a.rows[..k]), e);
      assert before + RowEntries(a.sourceId, a.rows[..k + 1]) == before + RowEntries(a.sourceId, a.rows[..k]) + [e];
      r := AddTo(r, e);
    }
    assert a.rows[..|a.rows|] == a.rows;
  }

  method CollectComponents(artifacts: seq<Artifact>) returns (m: ComponentSets)
    ensures Collects(m, Entries(artifacts))
  {
    m := map[];
    for i := 0 to |artifacts|
      invariant Collects(m, Entries(artifacts[..i]))
    {
      assert artifacts[..i + 1][..i] == artifacts[..i];
      m := CollectRows(m, artifacts[i], Entries(artifacts[..i]));
    }
    assert artifacts[..|artifacts|] == artifacts;
  }

  /** `_emit_component_source_map` */
  method EmitComponentMap(artifacts: seq<Artifact>) returns (rows: seq<ComponentRow>)
    ensures rows == ComponentMap(Entries(artifacts))
  {
    var m := CollectComponents(artifacts);
    var ids := SortedStrings(m.Keys);
    SortedStringsLists(m.Keys);
    rows := ListRows(m, ids);
    forall k | 0 <= k < |ids| ensures rows[k] == ComponentOf(Entries(artifacts), ids[k]) {
      CollectedRow(m, Entries(artifacts), ids[k]);
    }
  }

  function RowFor(m: ComponentSets, c: string): ComponentRow
    requires c in m
  {
    ComponentRow(c, SortedStrings(m[c].0), SortedStrings(m[c].1))
  }

  method ListRows(m: ComponentSets, ids: seq<string>) returns (rows: seq<ComponentRow>)
    requires forall k :: 0 <= k < |ids| ==> ids[k] in m
    ensures |rows| == |ids| && forall k :: 0 <= k < |ids| ==> rows[k] == RowFor(m, ids[k])
  {
    rows := [];
    for i := 0 to |ids|
      invariant |rows| == i && forall k :: 0 <= k < i ==> rows[k] == RowFor(m, ids[k])
    {
      rows := rows + [RowFor(m, ids[i])];
    }
  }

  lemma CollectedRow(m: ComponentSets, entries: seq<Entry>, c: string)
    requires Collects(m, entries) && c in m
    ensures RowFor(m, c) == ComponentOf(entries, c)
  {
  }

  lemma ComponentMapOfSameEntries(a: seq<Entry>, b: seq<Entry>)
    requires SameElements(a, b)
    ensures ComponentMap(a) == ComponentMap(b)
  {
    assert Components(a) == Components(b);
    forall c ensures ComponentOf(a, c) == ComponentOf(b, c) {
      assert SourcesOf(a, c) == SourcesOf(b, c) && ObligationsOf(a, c) == ObligationsOf(b, c);
    }
  }

  /** The two indexes agree: the component map built from the artifacts is the one derivable from the emitted obligation
      index. */
  lemma ComponentMapDerivable(artifacts: seq<Artifact>)
    ensures ComponentMap(Entries(artifacts)) == ComponentMap(ObligationIndex(artifacts))
  {
    IndexConservesRows(artifacts);
    SameMultisetSameLength(ObligationIndex(artifacts), Entries(artifacts));
    ComponentMapOfSameEntries(Entries(artifacts), ObligationIndex(artifacts));
  }

  /** The component map never depends on the order of the artifacts. */
  lemma ComponentMapOrderIndependent(a: seq<Artifact>, b: seq<Artifact>)
    requires multiset(a) == multiset(b)
    ensures ComponentMap(Entries(a)) == ComponentMap(Entries(b))
  {
    EntriesPermute(a, b);
    SameMultisetSameLength(Entries(a), Entries(b));
    ComponentMapOfSameEntries(Entries(a), Entries(b));
  }
}
