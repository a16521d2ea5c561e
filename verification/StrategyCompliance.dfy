/** The markdown table scanner and the roadmap output contract (scripts/check_strategy_compliance.py). */
module StrategyCompliance {
  import opened Wrappers
  import opened Ordering
  import opened Text

  // --------------------------------------------------------------------------- lines

  predicate IsPipe(line: string) { StartsWith(Strip(line), "|") }

  function StripAll(parts: seq<string>): (r: seq<string>)
    ensures |r| == |parts| && forall i :: 0 <= i < |r| ==> r[i] == Strip(parts[i])
  {
    seq(|parts|, i requires 0 <= i < |parts| => Strip(parts[i]))
  }

  function Cells(line: string): seq<string> { StripAll(Split(StripChar(Strip(line), '|'), '|')) }

  predicate IsRule(cell: string) {
    cell != "" && forall c :: c in cell ==> c == '-' || c == ':' || c == ' '
  }

  predicate IsSeparator(line: string) { forall cell :: cell in Cells(line) ==> IsRule(cell) }

  /** A line of the text, as the scanner sees it. */
  datatype Line = Line(pipe: bool, separator: bool, cells: seq<string>)

  function LineOf(text: string): Line { Line(IsPipe(text), IsSeparator(text), Cells(text)) }

  function LinesOf(texts: seq<string>): (r: seq<Line>)
    ensures |r| == |texts| && forall i :: 0 <= i < |r| ==> r[i] == LineOf(texts[i])
  {
    seq(|texts|, i requires 0 <= i < |texts| => LineOf(texts[i]))
  }

  /** Line i is a header and line i + 1 its separator. */
  predicate Pair(lines: seq<Line>, i: int) {
    0 <= i && i + 1 < |lines| && lines[i].pipe && lines[i + 1].pipe && lines[i + 1].separator
  }

  // -------------------------------------------------------------------------- ranges

  /** A table occupies the lines from its header to its end, exclusive. */
  datatype Range = Range(start: nat, end: nat)

  /** The first line at or after j that is not a pipe line, or the end of the text. */
  function RunEnd(lines: seq<Line>, j: nat): (r: nat)
    requires j <= |lines|
    ensures j <= r <= |lines|
    ensures forall k :: j <= k < r ==> lines[k].pipe
    ensures r < |lines| ==> !lines[r].pipe
    decreases |lines| - j
  {
    if j < |lines| && lines[j].pipe then RunEnd(lines, j + 1) else j
  }

  function Scan(lines: seq<Line>, i: nat): seq<Range>
    decreases |lines| - i
  {
    if i + 1 >= |lines| then []
    else if Pair(lines, i) then [Range(i, RunEnd(lines, i + 2))] + Scan(lines, RunEnd(lines, i + 2))
    else Scan(lines, i + 1)
  }

  datatype Table = Table(header: seq<string>, rows: seq<seq<string>>)

  ghost predicate Within(lines: seq<Line>, r: Range) { r.start + 2 <= r.end <= |lines| }

  function RowsOf(lines: seq<Line>, from: nat, to: nat): (r: seq<seq<string>>)
    requires from <= to <= |lines|
    ensures |r| == to - from && forall k :: 0 <= k < |r| ==> r[k] == lines[from + k].cells
  {
    seq(to - from, k requires 0 <= k < to - from => lines[from + k].cells)
  }

  function TableAt(lines: seq<Line>, r: Range): Table
    requires Within(lines, r)
  {
    Table(lines[r.start].cells, RowsOf(lines, r.start + 2, r.end))
  }

  lemma {:induction false} ScanWithin(lines: seq<Line>, i: nat)
    ensures forall k :: 0 <= k < |Scan(lines, i)| ==> Within(lines, Scan(lines, i)[k])
    decreases |lines| - i
  {
    if i + 1 < |lines| {
      ScanWithin(lines, if Pair(lines, i) then RunEnd(lines, i + 2) else i + 1);
    }
  }

  function TablesAt(lines: seq<Line>, ranges: seq<Range>): (r: seq<Table>)
    requires forall k :: 0 <= k < |ranges| ==> Within(lines, ranges[k])
    ensures |r| == |ranges| && forall k :: 0 <= k < |r| ==> r[k] == TableAt(lines, ranges[k])
  {
    seq(|ranges|, k requires 0 <= k < |ranges| => TableAt(lines, ranges[k]))
  }

  function TablesOf(lines: seq<Line>): seq<Table> {
    ScanWithin(lines, 0);
    TablesAt(lines, Scan(lines, 0))
  }

  /** `_markdown_tables` */
  method MarkdownTables(lines: seq<Line>) returns (tables: seq<Table>)
    ensures tables == TablesOf(lines)
  {
    ScanWithin(lines, 0);
    tables := [];
    ghost var ranges: seq<Range> := [];
    var i := 0;
    while i < |lines| - 1
      invariant 0 <= i <= |lines|
      invariant forall k :: 0 <= k < |ranges| ==> Within(lines, ranges[k])
      invariant ranges + Scan(lines, i) == Scan(lines, 0)
      invariant tables == TablesAt(lines, ranges)
      decreases |lines| - i
    {
      if lines[i].pipe && lines[i + 1].pipe {
        var header := lines[i].cells;
        if lines[i + 1].separator {
          var rows: seq<seq<string>> := [];
          var j := i + 2;
          while j < |lines| && lines[j].pipe
            invariant i + 2 <= j <= |lines|
            invariant RunEnd(lines, i + 2) == RunEnd(lines, j)
            invariant rows == RowsOf(lines, i + 2, j)
          {
            rows := rows + [lines[j].cells];
            j := j + 1;
          }
          assert j == RunEnd(lines, i + 2);
          ghost var found := Range(i, j);
          assert Table(header, rows) == TableAt(lines, found);
          assert (ranges + [found]) + Scan(lines, j) == ranges + Scan(lines, i);
          tables := tables + [Table(header, rows)];
          ranges := ranges + [found];
          i := j;
          continue;
        }
      }
      i := i + 1;
    }
    assert ranges == Scan(lines, 0) by { assert Scan(lines, i) == [] && ranges + [] == ranges; }
  }

  // ------------------------------------------------------------- what the scanner finds

  /** A table: a header/separator pair followed by the maximal run of pipe lines. */
  ghost predicate IsTable(lines: seq<Line>, r: Range) {
    && Within(lines, r) && Pair(lines, r.start)
    && (forall k :: r.start <= k < r.end ==> lines[k].pipe)
    && (r.end < |lines| ==> !lines[r.end].pipe)
  }

  ghost predicate Covers(r: Range, i: int) { r.start <= i && i + 1 < r.end }

  ghost predicate Placed(lines: seq<Line>, from: nat, ranges: seq<Range>) {
    forall k :: 0 <= k < |ranges| ==> IsTable(lines, ranges[k]) && from <= ranges[k].start
  }

  ghost predicate Disjoint(ranges: seq<Range>) {
    forall k, m :: 0 <= k < m < |ranges| ==> ranges[k].end <= ranges[m].start
  }

  ghost predicate Covered(ranges: seq<Range>, i: int) {
    exists k :: 0 <= k < |ranges| && Covers(ranges[k], i)
  }

  ghost predicate MissesNone(lines: seq<Line>, from: nat, ranges: seq<Range>) {
    forall i {:trigger Covered(ranges, i)} :: from <= i && Pair(lines, i) ==> Covered(ranges, i)
  }

  /** The tables from line `from` on: disjoint, in order, and with every later header/separator pair inside one. */
  ghost predicate TablesFrom(lines: seq<Line>, from: nat, ranges: seq<Range>) {
    Placed(lines, from, ranges) && Disjoint(ranges) && MissesNone(lines, from, ranges)
  }

  lemma FirstTable(lines: seq<Line>, from: nat)
    requires Pair(lines, from)
    ensures IsTable(lines, Range(from, RunEnd(lines, from + 2)))
  {
  }

  lemma PrependPlaced(lines: seq<Line>, from: nat, first: Range, rest: seq<Range>)
    requires IsTable(lines, first) && first.start == from
    requires Placed(lines, first.end, rest) && Disjoint(rest)
    ensures Placed(lines, from, [first] + rest) && Disjoint([first] + rest)
  {
    var all := [first] + rest;
    forall k | 0 <= k < |all| ensures IsTable(lines, all[k]) && from <= all[k].start {
      if k > 0 { assert all[k] == rest[k - 1]; }
    }
    forall k, m | 0 <= k < m < |all| ensures all[k].end <= all[m].start {
      assert all[m] == rest[m - 1];
      if k > 0 { assert all[k] == rest[k - 1]; }
    }
  }

  lemma PrependMissesNone(lines: seq<Line>, from: nat, first: Range, rest: seq<Range>)
    requires IsTable(lines, first) && first.start == from
    requires MissesNone(lines, first.end, rest)
    ensures MissesNone(lines, from, [first] + rest)
  {
    var all := [first] + rest;
    forall i | from <= i && Pair(lines, i) ensures Covered(all, i) {
      if i + 1 < first.end {
        assert Covers(all[0], i);
      } else {
        assert i != first.end - 1;
        assert Covered(rest, i);
        var k :| 0 <= k < |rest| && Covers(rest[k], i);
        assert Covers(all[k + 1], i);
      }
    }
  }

  /** The scanner finds tables in disjoint, increasing line ranges, each a pair with its maximal run of rows, and misses
      no pair. */
  lemma {:induction false} ScanFindsTables(lines: seq<Line>, from: nat)
    ensures TablesFrom(lines, from, Scan(lines, from))
    decreases |lines| - from
  {
    if from + 1 < |lines| {
      if Pair(lines, from) {
        ScanFindsTables(lines, RunEnd(lines, from + 2));
        var first := Range(from, RunEnd(lines, from + 2));
        FirstTable(lines, from);
        PrependPlaced(lines, from, first, Scan(lines, first.end));
        PrependMissesNone(lines, from, first, Scan(lines, first.end));
      } else {
        ScanFindsTables(lines, from + 1);
      }
    }
  }

  lemma FirstIsDetermined(lines: seq<Line>, from: nat, ranges: seq<Range>)
    requires TablesFrom(lines, from, ranges) && Pair(lines, from)
    ensures ranges != [] && ranges[0] == Range(from, RunEnd(lines, from + 2))
  {
    assert Covered(ranges, from);
    var k :| 0 <= k < |ranges| && Covers(ranges[k], from);
    assert IsTable(lines, ranges[0]) && IsTable(lines, ranges[k]);
    assert k == 0;
    var e, end := ranges[0].end, RunEnd(lines, from + 2);
    assert forall k :: from + 2 <= k < end ==> lines[k].pipe;
    assert forall k :: from <= k < e ==> lines[k].pipe;
    assert end <= e && e <= end;
  }

  lemma RestIsTables(lines: seq<Line>, from: nat, ranges: seq<Range>)
    requires TablesFrom(lines, from, ranges) && ranges != []
    ensures TablesFrom(lines, ranges[0].end, ranges[1..])
  {
    var rest, end := ranges[1..], ranges[0].end;
    assert IsTable(lines, ranges[0]);
    forall i | end <= i && Pair(lines, i) ensures Covered(rest, i) {
      assert Covered(ranges, i);
      var m :| 0 <= m < |ranges| && Covers(ranges[m], i);
      assert m != 0 && rest[m - 1] == ranges[m];
    }
  }

  /** Nothing else fits that description: the ranges are determined by the text. */
  lemma {:induction false} TablesAreUnique(lines: seq<Line>, from: nat, ranges: seq<Range>)
    requires TablesFrom(lines, from, ranges)
    ensures ranges == Scan(lines, from)
    decreases |lines| - from
  {
    assert |ranges| > 0 ==> IsTable(lines, ranges[0]);
    if from + 1 < |lines| {
      if Pair(lines, from) {
        FirstIsDetermined(lines, from, ranges);
        RestIsTables(lines, from, ranges);
        TablesAreUnique(lines, ranges[0].end, ranges[1..]);
        assert ranges == [ranges[0]] + ranges[1..];
      } else {
        assert Placed(lines, from + 1, ranges);
        TablesAreUnique(lines, from + 1, ranges);
      }
    }
  }

  // ------------------------------------------------------- the roadmap output contract

  function RequiredColumns(): seq<string> { ["Strategy Alignment", "Primary Trust Gain"] }

  /** A roadmap file on disk: None when it is missing; the lines of its text, none when the text is empty. */
  datatype File = File(path: string, text: Option<seq<string>>)

  /** The file as the scanner sees it. */
  datatype Roadmap = Roadmap(path: string, text: Option<seq<Line>>)

  function Seen(f: File): Roadmap {
    Roadmap(f.path, if f.text.Some? then Some(LinesOf(f.text.value)) else None)
  }

  function AllSeen(files: seq<File>): seq<Roadmap> { seq(|files|, k requires 0 <= k < |files| => Seen(files[k])) }

  datatype Violation =
    | MissingFile(path: string)
    | MissingTable(path: string)
    | MissingRowField(path: string, row: nat, column: string)
    | MissingColumns(path: string)

  predicate HasColumns(t: Table, required: seq<string>) { forall c :: c in required ==> c in t.header }

  /** `headers.index(col)`; past the end when the column is not there. */
  function ColumnIndex(header: seq<string>, column: string): (i: nat)
    ensures i <= |header| && column !in header[..i]
    ensures i < |header| ==> header[i] == column
  {
    if header == [] || header[0] == column then 0 else 1 + ColumnIndex(header[1..], column)
  }

  /** The row has no value, or a blank one, in the column. */
  predicate Blank(row: seq<string>, header: seq<string>, column: string) {
    var index := ColumnIndex(header, column);
    index >= |row| || Strip(row[index]) == ""
  }

  /** What checking each item, with its number from 1, adds to the violations. */
  function Flatten<T>(items: seq<T>, check: (nat, T) -> seq<Violation>): seq<Violation> {
    if items == [] then [] else Flatten(items[..|items| - 1], check) + check(|items|, items[|items| - 1])
  }

  lemma FlattenStep<T>(items: seq<T>, check: (nat, T) -> seq<Violation>, i: nat)
    requires i < |items|
    ensures Flatten(items[..i + 1], check) == Flatten(items[..i], check) + check(i + 1, items[i])
    ensures items[..i + 1][..i] == items[..i] && items[..|items|] == items
  {
    assert items[..i + 1][..i] == items[..i];
  }

  function CellCheck(path: string, n: nat, row: seq<string>, header: seq<string>): (nat, string) -> seq<Violation> {
    (_, column: string) => if Blank(row, header, column) then [MissingRowField(path, n, column)] else []
  }

  function RowCheck(path: string, header: seq<string>, required: seq<string>): (nat, seq<string>) -> seq<Violation> {
    (n: nat, row: seq<string>) => Flatten(required, CellCheck(path, n, row, header))
  }

  function TableCheck(path: string, required: seq<string>): (nat, Table) -> seq<Violation> {
    (_, t: Table) => if HasColumns(t, required) then Flatten(t.rows, RowCheck(path, t.header, required)) else []
  }

  predicate AnyWithColumns(tables: seq<Table>, required: seq<string>) {
    tables != [] && (AnyWithColumns(tables[..|tables| - 1], required) || HasColumns(tables[|tables| - 1], required))
  }

  function ContentViolations(path: string, tables: seq<Table>, required: seq<string>): seq<Violation> {
    if tables == [] then [MissingTable(path)]
    else
      Flatten(tables, TableCheck(path, required))
        + (if AnyWithColumns(tables, required) then [] else [MissingColumns(path)])
  }

  function FileCheck(required: seq<string>): (nat, Roadmap) -> seq<Violation> {
    (_, f: Roadmap) =>
      if f.text.None? then [MissingFile(f.path)]
      else if f.text.value == [] then []
      else ContentViolations(f.path, TablesOf(f.text.value), required)
  }

  class StrategyComplianceChecker {
    var violations: seq<Violation>

    constructor ()
      ensures violations == []
    {
      violations := [];
    }

    method AddViolation(v: Violation)
      modifies this
      ensures violations == old(violations) + [v]
    {
      violations := violations + [v];
    }

    /** `read_file`: a missing file is a violation and reads as empty. */
    method ReadFile(f: Roadmap) returns (text: seq<Line>)
      modifies this
      ensures text == if f.text.Some? then f.text.value else []
      ensures violations == old(violations) + if f.text.Some? then [] else [MissingFile(f.path)]
    {
      if f.text.None? {
        AddViolation(MissingFile(f.path));
        return [];
      }
      text := f.text.value;
    }

    method CheckRow(path: string, n: nat, row: seq<string>, header: seq<string>, required: seq<string>)
      modifies this
      ensures violations == old(violations) + Flatten(required, CellCheck(path, n, row, header))
    {
      for i := 0 to |required|
        invariant violations == old(violations) + Flatten(required[..i], CellCheck(path, n, row, header))
      {
        FlattenStep(required, CellCheck(path, n, row, header), i);
        AppendAssociates(old(violations), Flatten(required[..i], CellCheck(path, n, row, header)),
          CellCheck(path, n, row, header)(i + 1, required[i]));
        if Blank(row, header, required[i]) { AddViolation(MissingRowField(path, n, required[i])); }
      }
      assert required[..|required|] == required;
    }

    method CheckRows(path: string, rows: seq<seq<string>>, header: seq<string>, required: seq<string>)
      modifies this
      ensures violations == old(violations) + Flatten(rows, RowCheck(path, header, required))
    {
      for i := 0 to |rows|
        invariant violations == old(violations) + Flatten(rows[..i], RowCheck(path, header, required))
      {
        FlattenStep(rows, RowCheck(path, header, required), i);
        AppendAssociates(old(violations), Flatten(rows[..i], RowCheck(path, header, required)),
          RowCheck(path, header, required)(i + 1, rows[i]));
        CheckRow(path, i + 1, rows[i], header, required);
      }
      assert rows[..|rows|] == rows;
    }

    method CheckTables(path: string, tables: seq<Table>, required: seq<string>) returns (found: bool)
      modifies this
      ensures found == AnyWithColumns(tables, required)
      ensures violations == old(violations) + Flatten(tables, TableCheck(path, required))
    {
      found := false;
      for i := 0 to |tables|
        invariant found == AnyWithColumns(tables[..i], required)
        invariant violations == old(violations) + Flatten(tables[..i], TableCheck(path, required))
      {
        FlattenStep(tables, TableCheck(path, required), i);
        AppendAssociates(old(violations), Flatten(tables[..i], TableCheck(path, required)),
          TableCheck(path, required)(i + 1, tables[i]));
        if HasColumns(tables[i], required) {
          found := true;
          CheckRows(path, tables[i].rows, tables[i].header, required);
        }
      }
      assert tables[..|tables|] == tables;
    }

    method CheckContent(path: string, tables: seq<Table>, required: seq<string>)
      modifies this
      ensures violations == old(violations) + ContentViolations(path, tables, required)
    {
      if tables == [] {
        AddViolation(MissingTable(path));
        return;
      }
      var found := CheckTables(path, tables, required);
      if !found { AddViolation(MissingColumns(path)); }
    }

    method CheckFile(f: Roadmap, required: seq<string>)
      modifies this
      ensures forall n: nat :: violations == old(violations) + FileCheck(required)(n, f)
    {
      var text := ReadFile(f);
      if text != [] {
        var tables := MarkdownTables(text);
        CheckContent(f.path, tables, required);
      }
    }

    method CheckFiles(files: seq<Roadmap>, required: seq<string>)
      modifies this
      ensures violations == old(violations) + Flatten(files, FileCheck(required))
    {
      for i := 0 to |files|
        invariant violations == old(violations) + Flatten(files[..i], FileCheck(required))
      {
        FlattenStep(files, FileCheck(required), i);
        AppendAssociates(old(violations), Flatten(files[..i], FileCheck(required)),
          FileCheck(required)(i + 1, files[i]));
        CheckFile(files[i], required);
      }
      assert files[..|files|] == files;
    }

    /** `check_roadmap_output_contract` */
    method CheckRoadmapOutputContract(files: seq<File>)
      modifies this
      ensures violations == old(violations) + Flatten(AllSeen(files), FileCheck(RequiredColumns()))
    {
      CheckFiles(AllSeen(files), RequiredColumns());
    }
  }

  // ------------------------------------------------------------- what passing means

  lemma {:induction false} FlattenCleanIff<T>(items: seq<T>, check: (nat, T) -> seq<Violation>)
    ensures Flatten(items, check) == [] <==> forall k :: 0 <= k < |items| ==> check(k + 1, items[k]) == []
  {
    if items != [] { FlattenCleanIff(items[..|items| - 1], check); }
  }

  /** No row is short of, or blank in, a required column. */
  ghost predicate RowFilled(row: seq<string>, header: seq<string>, required: seq<string>) {
    forall j :: 0 <= j < |required| ==> !Blank(row, header, required[j])
  }

  /** If the table has the required columns, every row is filled in. */
  ghost predicate Filled(t: Table, required: seq<string>) {
    HasColumns(t, required) ==> forall k :: 0 <= k < |t.rows| ==> RowFilled(t.rows[k], t.header, required)
  }

  lemma RowCleanIff(path: string, n: nat, row: seq<string>, header: seq<string>, required: seq<string>)
    ensures RowCheck(path, header, required)(n, row) == [] <==> RowFilled(row, header, required)
  {
    FlattenCleanIff(required, CellCheck(path, n, row, header));
  }

  lemma TableCleanIff(path: string, n: nat, t: Table, required: seq<string>)
    ensures TableCheck(path, required)(n, t) == [] <==> Filled(t, required)
  {
    FlattenCleanIff(t.rows, RowCheck(path, t.header, required));
    forall k | 0 <= k < |t.rows|
      ensures RowCheck(path, t.header, required)(k + 1, t.rows[k]) == [] <==> RowFilled(t.rows[k], t.header, required)
    {
      RowCleanIff(path, k + 1, t.rows[k], t.header, required);
    }
  }

  lemma {:induction false} AnyMeansSome(tables: seq<Table>, required: seq<string>)
    ensures AnyWithColumns(tables, required) <==> exists k :: 0 <= k < |tables| && HasColumns(tables[k], required)
  {
    if tables != [] { AnyMeansSome(tables[..|tables| - 1], required); }
  }

  /** One table has the required columns, and each that has them is filled in. */
  ghost predicate MeetsContract(tables: seq<Table>, required: seq<string>) {
    && (exists k :: 0 <= k < |tables| && HasColumns(tables[k], required))
    && (forall k :: 0 <= k < |tables| ==> Filled(tables[k], required))
  }

  lemma ContentCleanIff(path: string, tables: seq<Table>, required: seq<string>)
    ensures ContentViolations(path, tables, required) == [] <==> MeetsContract(tables, required)
  {
    var check := TableCheck(path, required);
    FlattenCleanIff(tables, check);
    AnyMeansSome(tables, required);
    forall k | 0 <= k < |tables| ensures check(k + 1, tables[k]) == [] <==> Filled(tables[k], required) {
      TableCleanIff(path, k + 1, tables[k], required);
    }
  }

  ghost predicate Describes(f: Roadmap, ranges: seq<Range>) {
    f.text.Some? ==> TablesFrom(f.text.value, 0, ranges)
  }

  /** The file exists, and either is empty or holds tables that meet the contract. */
  ghost predicate Passes(f: Roadmap, ranges: seq<Range>, required: seq<string>)
    requires Describes(f, ranges)
  {
    f.text.Some? && (f.text.value == [] || MeetsContract(TablesAt(f.text.value, ranges), required))
  }

  lemma FilePassesIff(n: nat, f: Roadmap, ranges: seq<Range>, required: seq<string>)
    requires Describes(f, ranges)
    ensures FileCheck(required)(n, f) == [] <==> Passes(f, ranges, required)
  {
    if f.text.Some? && f.text.value != [] {
      var lines := f.text.value;
      TablesAreUnique(lines, 0, ranges);
      ScanWithin(lines, 0);
      ContentCleanIff(f.path, TablesOf(lines), required);
    }
  }

  /** The check raises nothing exactly when every roadmap passes, whatever ranges describe the tables of each. */
  lemma ContractMetIff(files: seq<Roadmap>, ranges: seq<seq<Range>>, required: seq<string>)
    requires |ranges| == |files| && forall k :: 0 <= k < |files| ==> Describes(files[k], ranges[k])
    ensures Flatten(files, FileCheck(required)) == [] <==>
            forall k :: 0 <= k < |files| ==> Passes(files[k], ranges[k], required)
  {
    var check := FileCheck(required);
    FlattenCleanIff(files, check);
    forall k | 0 <= k < |files| ensures check(k + 1, files[k]) == [] <==> Passes(files[k], ranges[k], required) {
      FilePassesIff(k + 1, files[k], ranges[k], required);
    }
  }
}
