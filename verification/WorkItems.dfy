/** Deduplicating, ordering and numbering the review work items (scripts/generate_work_items.py). */
module WorkItems {
  import opened Ordering

  /** A work item; `details` stands for the fields no step below reads. */
  datatype Item = Item(
    workItemId: string, sourceId: string, findingId: string, priority: int, createdAt: string, details: string)

  datatype Key = Key(sourceId: string, findingId: string)

  function KeyOf(item: Item): Key { Key(item.sourceId, item.findingId) }

  function Keys(items: seq<Item>): set<Key> { set item | item in items :: KeyOf(item) }

  lemma KeysStep(items: seq<Item>, i: nat)
    requires i < |items|
    ensures Keys(items[..i + 1]) == Keys(items[..i]) + {KeyOf(items[i])}
    ensures items[..i + 1][..i] == items[..i] && items[..|items|] == items
  {
    assert items[..i + 1] == items[..i] + [items[i]];
  }

  // ---------------------------------------------------------------- first of each key

  function Deduplicated(items: seq<Item>): seq<Item> {
    if items == [] then []
    else
      var before, last := items[..|items| - 1], items[|items| - 1];
      Deduplicated(before) + (if KeyOf(last) in Keys(before) then [] else [last])
  }

  /** `_deduplicate` */
  method Deduplicate(items: seq<Item>) returns (unique: seq<Item>)
    ensures unique == Deduplicated(items)
  {
    var seen: set<Key> := {};
    unique := [];
    for i := 0 to |items|
      invariant seen == Keys(items[..i])
      invariant unique == Deduplicated(items[..i])
    {
      KeysStep(items, i);
      if KeyOf(items[i]) !in seen {
        seen := seen + {KeyOf(items[i])};
        unique := unique + [items[i]];
      }
    }
    assert items[..|items|] == items;
  }

  /** No earlier item has the key of item i. */
  ghost predicate IsFirst(items: seq<Item>, i: int) {
    0 <= i < |items| && forall j :: 0 <= j < i ==> KeyOf(items[j]) != KeyOf(items[i])
  }

  /** `out` is the first item of each key, in the order of the input, at the listed positions. */
  ghost predicate Picks(items: seq<Item>, at: seq<int>, out: seq<Item>) {
    && |at| == |out|
    && (forall k :: 0 <= k < |at| ==> IsFirst(items, at[k]) && out[k] == items[at[k]])
    && (forall k, m :: 0 <= k < m < |at| ==> at[k] < at[m])
    && (forall i {:trigger IsFirst(items, i)} :: IsFirst(items, i) ==> i in at)
  }

  ghost function Firsts(items: seq<Item>): seq<int> {
    if items == [] then []
    else
      var n := |items| - 1;
      Firsts(items[..n]) + (if KeyOf(items[n]) in Keys(items[..n]) then [] else [n])
  }

  lemma FirstExtends(items: seq<Item>, i: int)
    requires items != []
    ensures i < |items| - 1 ==> (IsFirst(items, i) <==> IsFirst(items[..|items| - 1], i))
    ensures IsFirst(items, |items| - 1) <==> KeyOf(items[|items| - 1]) !in Keys(items[..|items| - 1])
  {
    var n := |items| - 1;
    assert items == items[..n] + [items[n]];
    assert forall j :: 0 <= j < n ==> items[..n][j] == items[j] && items[j] in items[..n];
  }

  lemma {:induction false} DeduplicatedPicks(items: seq<Item>)
    ensures Picks(items, Firsts(items), Deduplicated(items))
  {
    if items != [] {
      var n := |items| - 1;
      var before := items[..n];
      DeduplicatedPicks(before);
      FirstExtends(items, n);
      forall k | 0 <= k < |Firsts(before)| ensures IsFirst(items, Firsts(before)[k]) {
        FirstExtends(items, Firsts(before)[k]);
      }
      forall i | IsFirst(items, i) ensures i in Firsts(items) {
        FirstExtends(items, i);
        assert i < n ==> i in Firsts(before);
      }
    }
  }

  ghost predicate KeysDistinct(items: seq<Item>) {
    forall k, m :: 0 <= k < m < |items| ==> KeyOf(items[k]) != KeyOf(items[m])
  }

  lemma {:induction false} DeduplicatedFixpoint(items: seq<Item>)
    requires KeysDistinct(items)
    ensures Deduplicated(items) == items
  {
    if items != [] {
      DeduplicatedFixpoint(items[..|items| - 1]);
      assert items == items[..|items| - 1] + [items[|items| - 1]];
    }
  }

  // -------------------------------------------------------------------------- order

  /** Priority descending, then date, then finding. */
  predicate Before(a: Item, b: Item) {
    if a.priority != b.priority then a.priority > b.priority
    else if a.createdAt != b.createdAt then StrLeq(a.createdAt, b.createdAt)
    else StrLeq(a.findingId, b.findingId)
  }

  lemma BeforeOrders()
    ensures TotalPreorder(Before)
  {
    StrOrder();
    assert forall a, b :: Before(a, b) || Before(b, a);
    assert forall a, b, c :: Before(a, b) && Before(b, c) ==> Before(a, c);
  }

  // ------------------------------------------------------------------------- numbers

  function Digit(d: nat): char
    requires d < 10
  {
    '0' + d as char
  }

  function Decimal(n: nat): (s: string)
    ensures |s| >= 1
  {
    if n < 10 then [Digit(n)] else Decimal(n / 10) + [Digit(n % 10)]
  }

  function Zeros(k: nat): (s: string)
    ensures |s| == k
  {
    seq(k, _ => '0')
  }

  /** `f"{n:04d}"` */
  function Padded(n: nat): string {
    var s := Decimal(n);
    if |s| < 4 then Zeros(4 - |s|) + s else s
  }

  function WorkItemId(n: nat): string { "WI-" + Padded(n) }

  function ValueOf(s: string): int {
    if s == [] then 0 else 10 * ValueOf(s[..|s| - 1]) + (s[|s| - 1] as int - '0' as int)
  }

  lemma {:induction false} DecimalRoundTrip(n: nat)
    ensures ValueOf(Decimal(n)) == n
  {
    if n < 10 {
      assert ValueOf([]) == 0 && [Digit(n)][..0] == [];
    } else {
      DecimalRoundTrip(n / 10);
      var s := Decimal(n / 10) + [Digit(n % 10)];
      assert s[..|s| - 1] == Decimal(n / 10);
    }
  }

  lemma {:induction false} LeadingZeros(k: nat, s: string)
    ensures ValueOf(Zeros(k) + s) == ValueOf(s)
    decreases k + |s|
  {
    var t := Zeros(k) + s;
    if s != [] {
      assert t[..|t| - 1] == Zeros(k) + s[..|s| - 1];
      LeadingZeros(k, s[..|s| - 1]);
    } else if k > 0 {
      assert t[..|t| - 1] == Zeros(k - 1) + s;
      LeadingZeros(k - 1, s);
    }
  }

  /** The number of a work item can be read back from its id, so ids of different numbers differ. */
  lemma WorkItemIdRoundTrip(n: nat)
    ensures ValueOf(WorkItemId(n)[3..]) == n
    ensures |WorkItemId(n)| >= 7 && WorkItemId(n)[..3] == "WI-"
  {
    assert WorkItemId(n)[3..] == Padded(n);
    DecimalRoundTrip(n);
    var s := Decimal(n);
    if |s| < 4 { LeadingZeros(4 - |s|, s); }
  }

  function Numbered(item: Item, n: nat): Item { item.(workItemId := WorkItemId(n)) }

  function Renumbered(items: seq<Item>): (r: seq<Item>)
    ensures |r| == |items| && forall k :: 0 <= k < |r| ==> r[k] == Numbered(items[k], k + 1)
  {
    seq(|items|, k requires 0 <= k < |items| => Numbered(items[k], k + 1))
  }

  /** `_renumber`: the ids are assigned in place. */
  method Renumber(items: array<Item>)
    modifies items
    ensures items[..] == Renumbered(old(items[..]))
  {
    for i := 0 to items.Length
      invariant forall k :: 0 <= k < i ==> items[k] == Numbered(old(items[k]), k + 1)
      invariant forall k :: i <= k < items.Length ==> items[k] == old(items[k])
    {
      items[i] := items[i].(workItemId := WorkItemId(i + 1));
    }
  }

  // ------------------------------------------------------------------------ pipeline

  /** The items in the order they are numbered in. */
  function Ordered(items: seq<Item>): seq<Item> { Sort(Deduplicated(items), Before) }

  function Generated(items: seq<Item>): seq<Item> { Renumbered(Ordered(items)) }

  /** `generate`, from the ingested items on. */
  method Generate(items: seq<Item>) returns (r: seq<Item>)
    ensures r == Generated(items)
  {
    var unique := Deduplicate(items);
    var ordered := Sort(unique, Before);
    var a := new Item[|ordered|](k requires 0 <= k < |ordered| => ordered[k]);
    assert a[..] == ordered;
    Renumber(a);
    r := a[..];
  }

  // ------------------------------------------------------------------ what comes out

  lemma PicksHaveDistinctKeys(items: seq<Item>, at: seq<int>, out: seq<Item>)
    requires Picks(items, at, out)
    ensures KeysDistinct(out)
  {
    forall k, m | 0 <= k < m < |out| ensures KeyOf(out[k]) != KeyOf(out[m]) {
      assert IsFirst(items, at[m]) && at[k] < at[m] && IsFirst(items, at[k]);
    }
  }

  lemma {:induction false} KeysApart(items: seq<Item>, x: Item, y: Item)
    requires KeysDistinct(items) && x in items && y in items && KeyOf(x) == KeyOf(y)
    ensures x == y
  {
    var i :| 0 <= i < |items| && items[i] == x;
    var j :| 0 <= j < |items| && items[j] == y;
    assert i == j;
  }

  lemma RearrangedKeys(a: seq<Item>, b: seq<Item>)
    requires KeysDistinct(a) && multiset(a) == multiset(b)
    ensures KeysDistinct(b)
  {
    assert Distinct(a);
    DistinctFromMultiset(a, b);
    SameMultisetSameLength(a, b);
    forall k, m | 0 <= k < m < |b| ensures KeyOf(b[k]) != KeyOf(b[m]) {
      assert b[k] in a && b[m] in a;
      if KeyOf(b[k]) == KeyOf(b[m]) { KeysApart(a, b[k], b[m]); }
    }
  }

  lemma OrderedKeys(items: seq<Item>)
    ensures KeysDistinct(Ordered(items)) && SortedBy(Ordered(items), Before)
    ensures SameElements(Ordered(items), Deduplicated(items))
  {
    BeforeOrders();
    DeduplicatedPicks(items);
    PicksHaveDistinctKeys(items, Firsts(items), Deduplicated(items));
    SortSorts(Deduplicated(items), Before);
    RearrangedKeys(Deduplicated(items), Ordered(items));
  }

  /** The same item but for its number. */
  ghost predicate SameItem(a: Item, b: Item) { a.(workItemId := b.workItemId) == b }

  lemma FirstByKey(items: seq<Item>, key: Key) returns (i: int)
    requires key in Keys(items)
    ensures IsFirst(items, i) && KeyOf(items[i]) == key
  {
    i := 0;
    while KeyOf(items[i]) != key
      invariant 0 <= i < |items| && (forall j :: 0 <= j < i ==> KeyOf(items[j]) != key)
      decreases |items| - i
    {
      assert i == |items| - 1 ==> key !in Keys(items);
      i := i + 1;
    }
  }

  /** Item k of the output is the first ingested item of its key. */
  ghost predicate FirstIngested(items: seq<Item>, item: Item) {
    exists i :: IsFirst(items, i) && SameItem(items[i], item)
  }

  /** Exactly one item per ingested key, each carrying the first ingested content of its key. */
  lemma OnePerKey(items: seq<Item>)
    ensures KeysDistinct(Generated(items))
    ensures Keys(Generated(items)) == Keys(items)
    ensures forall k :: 0 <= k < |Generated(items)| ==> FirstIngested(items, Generated(items)[k])
  {
    OrderedKeys(items);
    DeduplicatedPicks(items);
    var out, mid := Generated(items), Ordered(items);
    forall k | 0 <= k < |out| ensures FirstIngested(items, out[k]) && KeyOf(out[k]) in Keys(items) {
      assert mid[k] in Deduplicated(items);
      var m :| 0 <= m < |Deduplicated(items)| && Deduplicated(items)[m] == mid[k];
      assert IsFirst(items, Firsts(items)[m]) && SameItem(items[Firsts(items)[m]], out[k]);
    }
    forall key | key in Keys(items) ensures key in Keys(out) {
      var i := FirstByKey(items, key);
      assert i in Firsts(items);
      var m :| 0 <= m < |Firsts(items)| && Firsts(items)[m] == i;
      assert Deduplicated(items)[m] in mid;
      var k :| 0 <= k < |mid| && mid[k] == Deduplicated(items)[m];
      assert out[k] in out && KeyOf(out[k]) == key;
    }
  }

  /** The output is in order, and items that tie come in the order they were ingested. */
  lemma OutputIsOrdered(items: seq<Item>, x: Item)
    ensures SortedBy(Generated(items), Before)
    ensures Ties(Ordered(items), x, Before) == Ties(Deduplicated(items), x, Before)
  {
    OrderedKeys(items);
    BeforeOrders();
    SortStable(Deduplicated(items), x, Before);
  }

  /** The ids are the positions, and no two items share one. */
  lemma IdsAreDistinct(items: seq<Item>)
    ensures forall k :: 0 <= k < |Generated(items)| ==> ValueOf(Generated(items)[k].workItemId[3..]) == k + 1
    ensures forall k, m :: 0 <= k < m < |Generated(items)| ==>
        Generated(items)[k].workItemId != Generated(items)[m].workItemId
  {
    var out := Generated(items);
    forall k | 0 <= k < |out| ensures |out[k].workItemId| >= 7 && ValueOf(out[k].workItemId[3..]) == k + 1 {
      WorkItemIdRoundTrip(k + 1);
    }
  }

  /** Running the pipeline on its own output changes nothing. */
  lemma GenerateIsIdempotent(items: seq<Item>)
    ensures Generated(Generated(items)) == Generated(items)
  {
    var out := Generated(items);
    OnePerKey(items);
    DeduplicatedFixpoint(out);
    OutputIsOrdered(items, Item("", "", "", 0, "", ""));
    SortFixpoint(out, Before);
    assert Ordered(out) == out;
  }

  ghost predicate NoTies(items: seq<Item>) {
    forall x, y :: x in items && y in items && Before(x, y) && Before(y, x) ==> x == y
  }

  /** With one item per key and no ties, the output does not depend on the order of ingestion. */
  lemma OrderIndependent(a: seq<Item>, b: seq<Item>)
    requires multiset(a) == multiset(b) && KeysDistinct(a) && NoTies(a)
    ensures Generated(a) == Generated(b)
  {
    RearrangedKeys(a, b);
    DeduplicatedFixpoint(a);
    DeduplicatedFixpoint(b);
    BeforeOrders();
    SortSorts(a, Before);
    SortSorts(b, Before);
    SortedUnique(Sort(a, Before), Sort(b, Before), Before);
  }
}
