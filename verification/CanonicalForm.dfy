/** The freshness normaliser of the precheck (scripts/run_agent_pr_precheck.py, `_normalize` and the drift test). */
module CanonicalForm {
  import opened Wrappers
  import opened Ordering
  import opened Json

  const VOLATILE: set<string> := {"generated_at", "created_at", "last_updated", "run_at", "timestamp"}

  predicate Stable(f: Field) { f.key !in VOLATILE }

  /** Order of object items: by key; keys of one object are distinct, so values are never compared. */
  predicate FieldLeq(a: Field, b: Field) { StrLeq(a.key, b.key) }

  ghost predicate DistinctKeys(fields: seq<Field>) {
    forall i, j :: 0 <= i < j < |fields| ==> fields[i].key != fields[j].key
  }

  /** What `json.loads` guarantees: no object holds a key twice. */
  ghost predicate WellFormed(j: Json) {
    match j
    case Arr(items) => forall i :: 0 <= i < |items| ==> WellFormed(items[i])
    case Obj(fields) => DistinctKeys(fields) && forall i :: 0 <= i < |fields| ==> WellFormed(fields[i].value)
    case _ => true
  }

  /** `_normalize`: volatile keys dropped at every depth, items in key order. */
  function Normalize(j: Json): Json {
    match j
    case Arr(items) => Arr(NormalizeItems(items))
    case Obj(fields) => Obj(Sort(Keep(fields), FieldLeq))
    case _ => j
  }

  function NormalizeItems(items: seq<Json>): seq<Json> {
    if items == [] then [] else [Normalize(items[0])] + NormalizeItems(items[1..])
  }

  /** The stable items of an object, normalised. */
  function Keep(fields: seq<Field>): seq<Field> {
    if fields == [] then []
    else (if Stable(fields[0]) then [Field(fields[0].key, Normalize(fields[0].value))] else []) + Keep(fields[1..])
  }

  /** Equal up to volatile keys at every depth and the order of object keys. */
  ghost predicate Equivalent(a: Json, b: Json) {
    match a
    case Arr(xs) => b.Arr? && |xs| == |b.items| && forall i :: 0 <= i < |xs| ==> Equivalent(xs[i], b.items[i])
    case Obj(f) =>
      && b.Obj?
      && StableKeys(f) == StableKeys(b.fields)
      && forall i, j :: 0 <= i < |f| && 0 <= j < |b.fields| && Stable(f[i]) && f[i].key == b.fields[j].key ==>
         Equivalent(f[i].value, b.fields[j].value)
    case _ => a == b
  }

  function StableKeys(fields: seq<Field>): set<string> {
    set f | f in fields && Stable(f) :: f.key
  }

  // -------------------------------------------------------------------- kept items

  function Kept(f: Field): Field { Field(f.key, Normalize(f.value)) }

  lemma {:induction false} KeepHas(fields: seq<Field>, i: nat)
    requires i < |fields| && Stable(fields[i])
    ensures Kept(fields[i]) in Keep(fields)
  {
    if i > 0 {
      KeepHas(fields[1..], i - 1);
      assert fields[1..][i - 1] == fields[i];
    }
  }

  lemma {:induction false} KeepFrom(fields: seq<Field>, x: Field) returns (i: nat)
    requires x in Keep(fields)
    ensures i < |fields| && Stable(fields[i]) && x == Kept(fields[i])
  {
    if Stable(fields[0]) && x == Kept(fields[0]) {
      i := 0;
    } else {
      i := KeepFrom(fields[1..], x);
      assert fields[1..][i] == fields[i + 1];
      i := i + 1;
    }
  }

  lemma {:induction false} KeepDistinct(fields: seq<Field>)
    requires DistinctKeys(fields)
    ensures DistinctKeys(Keep(fields))
  {
    if fields != [] {
      KeepDistinct(fields[1..]);
      forall x | x in Keep(fields[1..]) ensures x.key != fields[0].key {
        var i := KeepFrom(fields[1..], x);
        assert fields[1..][i] == fields[i + 1];
      }
    }
  }

  lemma FieldOrder()
    ensures TotalPreorder(FieldLeq)
  {
    StrOrder();
    forall a, b, c | FieldLeq(a, b) && FieldLeq(b, c) ensures FieldLeq(a, c) {
      assert StrLeq(a.key, b.key) && StrLeq(b.key, c.key);
    }
    forall a, b ensures FieldLeq(a, b) || FieldLeq(b, a) {
      assert StrLeq(a.key, b.key) || StrLeq(b.key, a.key);
    }
  }

  lemma {:induction false} CountDistinct(s: seq<Field>, x: Field)
    requires DistinctKeys(s)
    ensures multiset(s)[x] == if x in s then 1 else 0
  {
    if s != [] {
      assert s == [s[0]] + s[1..];
      CountDistinct(s[1..], x);
      assert forall k :: 1 <= k < |s| ==> s[k] != s[0];
    }
  }

  lemma SameItemsSameMultiset(a: seq<Field>, b: seq<Field>)
    requires DistinctKeys(a) && DistinctKeys(b) && SameElements(a, b)
    ensures multiset(a) == multiset(b)
  {
    forall x ensures multiset(a)[x] == multiset(b)[x] {
      CountDistinct(a, x);
      CountDistinct(b, x);
    }
  }

  lemma TiesAreEqual(a: seq<Field>, s: seq<Field>)
    requires DistinctKeys(a) && (forall x :: x in s ==> x in a)
    ensures forall x, y :: x in s && y in s && FieldLeq(x, y) && FieldLeq(y, x) ==> x == y
  {
    StrOrder();
    forall x, y | x in s && y in s && FieldLeq(x, y) && FieldLeq(y, x) ensures x == y {
      var i :| 0 <= i < |a| && a[i] == x;
      var j :| 0 <= j < |a| && a[j] == y;
      assert x.key == y.key;
      assert i == j;
    }
  }

  /** Sorted items with distinct keys are equal exactly when they are the same items. */
  lemma SortedItemsIff(a: seq<Field>, b: seq<Field>)
    requires DistinctKeys(a) && DistinctKeys(b)
    ensures Sort(a, FieldLeq) == Sort(b, FieldLeq) <==> SameElements(a, b)
  {
    FieldOrder();
    SortSorts(a, FieldLeq);
    SortSorts(b, FieldLeq);
    if SameElements(a, b) {
      SameItemsSameMultiset(a, b);
      TiesAreEqual(a, Sort(a, FieldLeq));
      SortedUnique(Sort(a, FieldLeq), Sort(b, FieldLeq), FieldLeq);
    }
    if Sort(a, FieldLeq) == Sort(b, FieldLeq) {
      forall x ensures x in a <==> x in b { assert x in Sort(a, FieldLeq) <==> x in a; }
    }
  }

  // ---------------------------------------------------------------- canonical form

  lemma {:induction false} NormalizeItemsAt(items: seq<Json>)
    ensures |NormalizeItems(items)| == |items|
    ensures forall i :: 0 <= i < |items| ==> NormalizeItems(items)[i] == Normalize(items[i])
  {
    if items != [] {
      NormalizeItemsAt(items[1..]);
      assert forall i :: 1 <= i < |items| ==> items[i] == items[1..][i - 1];
    }
  }

  /** Same key and same normal value, for the stable items of two objects. */
  ghost predicate ValuesAgree(f: seq<Field>, g: seq<Field>) {
    && StableKeys(f) == StableKeys(g)
    && forall i, j :: 0 <= i < |f| && 0 <= j < |g| && Stable(f[i]) && f[i].key == g[j].key ==>
       Normalize(f[i].value) == Normalize(g[j].value)
  }

  lemma KeepWithin(f: seq<Field>, g: seq<Field>, x: Field)
    requires ValuesAgree(f, g) && x in Keep(f)
    ensures x in Keep(g)
  {
    var i := KeepFrom(f, x);
    assert f[i].key in StableKeys(g);
    var h :| h in g && Stable(h) && h.key == f[i].key;
    var j :| 0 <= j < |g| && g[j] == h;
    KeepHas(g, j);
  }

  lemma KeepSameIff(f: seq<Field>, g: seq<Field>)
    requires DistinctKeys(f) && DistinctKeys(g)
    ensures SameElements(Keep(f), Keep(g)) <==> ValuesAgree(f, g)
  {
    if ValuesAgree(f, g) {
      forall x ensures x in Keep(f) <==> x in Keep(g) {
        if x in Keep(f) { KeepWithin(f, g, x); }
        if x in Keep(g) { KeepWithin(g, f, x); }
      }
    }
    if SameElements(Keep(f), Keep(g)) {
      KeepKeys(f);
      KeepKeys(g);
      KeepDistinct(g);
      forall i, j | 0 <= i < |f| && 0 <= j < |g| && Stable(f[i]) && f[i].key == g[j].key
        ensures Normalize(f[i].value) == Normalize(g[j].value) {
        KeepHas(f, i);
        KeepHas(g, j);
        var m :| 0 <= m < |Keep(g)| && Keep(g)[m] == Kept(f[i]);
        var n :| 0 <= n < |Keep(g)| && Keep(g)[n] == Kept(g[j]);
        assert m == n;
      }
    }
  }

  lemma KeepKeys(f: seq<Field>)
    ensures StableKeys(f) == set x | x in Keep(f) :: x.key
  {
    forall k | k in StableKeys(f) ensures k in set x | x in Keep(f) :: x.key {
      var h :| h in f && Stable(h) && h.key == k;
      var i :| 0 <= i < |f| && f[i] == h;
      KeepHas(f, i);
      assert Kept(f[i]).key == k;
    }
    forall x | x in Keep(f) ensures x.key in StableKeys(f) {
      var i := KeepFrom(f, x);
      assert f[i] in f;
    }
  }

  /** The normaliser is a canonical form: two documents normalise to the same tree exactly when they are equal up to
      volatile keys at every depth and the order of object keys. */
  lemma {:induction false} NormalFormIff(a: Json, b: Json)
    requires WellFormed(a) && WellFormed(b)
    ensures Normalize(a) == Normalize(b) <==> Equivalent(a, b)
    decreases a
  {
    match a
    case Arr(xs) =>
      if b.Arr? {
        NormalizeItemsAt(xs);
        NormalizeItemsAt(b.items);
        forall i | 0 <= i < |xs| && i < |b.items|
          ensures Normalize(xs[i]) == Normalize(b.items[i]) <==> Equivalent(xs[i], b.items[i]) {
          NormalFormIff(xs[i], b.items[i]);
        }
        if Equivalent(a, b) { assert NormalizeItems(xs) == NormalizeItems(b.items); }
      }
    case Obj(f) =>
      if b.Obj? {
        var g := b.fields;
        forall i, j | 0 <= i < |f| && 0 <= j < |g|
          ensures Normalize(f[i].value) == Normalize(g[j].value) <==> Equivalent(f[i].value, g[j].value) {
          NormalFormIff(f[i].value, g[j].value);
        }
        assert Equivalent(a, b) <==> ValuesAgree(f, g);
        KeepSameIff(f, g);
        KeepDistinct(f);
        KeepDistinct(g);
        SortedItemsIff(Keep(f), Keep(g));
      }
    case _ =>
  }

  lemma {:induction false} KeepOfNormal(s: seq<Field>)
    requires forall i :: 0 <= i < |s| ==> Stable(s[i]) && Normalize(s[i].value) == s[i].value
    ensures Keep(s) == s
  {
    if s != [] {
      KeepOfNormal(s[1..]);
      assert s == [s[0]] + s[1..];
    }
  }

  /** Normalising twice is normalising once, on every tree. */
  lemma {:induction false} NormalizeIdempotent(j: Json)
    ensures Normalize(Normalize(j)) == Normalize(j)
    decreases j
  {
    match j
    case Arr(items) =>
      NormalizeItemsAt(items);
      NormalizeItemsAt(NormalizeItems(items));
      forall i | 0 <= i < |items| ensures NormalizeItems(NormalizeItems(items))[i] == NormalizeItems(items)[i] {
        NormalizeIdempotent(items[i]);
      }
      assert NormalizeItems(NormalizeItems(items)) == NormalizeItems(items);
    case Obj(fields) =>
      FieldOrder();
      var s := Sort(Keep(fields), FieldLeq);
      SortSorts(Keep(fields), FieldLeq);
      forall i | 0 <= i < |s| ensures Stable(s[i]) && Normalize(s[i].value) == s[i].value {
        assert s[i] in s && s[i] in Keep(fields);
        var k := KeepFrom(fields, s[i]);
        NormalizeIdempotent(fields[k].value);
      }
      KeepOfNormal(s);
      SortFixpoint(s, FieldLeq);
    case _ =>
  }

  // ---------------------------------------------------------------------- the drift

  /** `_capture_norm`: None when the file is missing or does not parse; `dump` is `json.dumps(..., sort_keys=True)`. */
  function Capture(dump: Json -> string, file: Option<Json>): Option<string> {
    match file
    case None => None
    case Some(j) => Some(dump(Normalize(j)))
  }

  function Drift(dump: Json -> string, first: map<string, Option<Json>>, second: map<string, Option<Json>>): seq<string>
    requires first.Keys == second.Keys
  {
    SortedStrings(set k | k in first && Capture(dump, first[k]) != Capture(dump, second[k]))
  }

  /** The two regenerations are reported stable exactly when each target is unreadable both times or holds equivalent
      documents. Of the dump only this is used: on normalised documents, where keys are in order, the text determines
      the tree. */
  lemma TwiceStableIff(dump: Json -> string, first: map<string, Option<Json>>, second: map<string, Option<Json>>)
    requires first.Keys == second.Keys
    requires forall a, b :: WellFormed(a) && WellFormed(b) && dump(Normalize(a)) == dump(Normalize(b))
               ==> Normalize(a) == Normalize(b)
    requires forall k :: k in first ==>
        (first[k].Some? ==> WellFormed(first[k].value)) && (second[k].Some? ==> WellFormed(second[k].value))
    ensures Drift(dump, first, second) == [] <==>
            forall k :: k in first ==>
              || (first[k].None? && second[k].None?)
              || (first[k].Some? && second[k].Some? && Equivalent(first[k].value, second[k].value))
  {
    var drifted := set k | k in first && Capture(dump, first[k]) != Capture(dump, second[k]);
    SortedStringsLists(drifted);
    forall k | k in first ensures k !in drifted <==>
        || (first[k].None? && second[k].None?)
        || (first[k].Some? && second[k].Some? && Equivalent(first[k].value, second[k].value))
    {
      if first[k].Some? && second[k].Some? { NormalFormIff(first[k].value, second[k].value); }
    }
    assert Drift(dump, first, second) == [] <==> drifted == {};
    assert drifted == {} <==> forall k :: k in first ==> k !in drifted;
  }
}
