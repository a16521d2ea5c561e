/**
 Sorting as Python defines it: a stable sort by a preorder (`sorted(xs, key=...)`,
 `xs.sort(key=...)`) and the ascending listing of a set (`sorted(set(xs))`).
 Both are characterised by what they return, so that order independence of the
 artifacts built with them follows from uniqueness.
 */
module Ordering {

  ghost predicate TotalPreorder<T(!new)>(leq: (T, T) -> bool) {
    && (forall x, y :: leq(x, y) || leq(y, x))
    && (forall x, y, z :: leq(x, y) && leq(y, z) ==> leq(x, z))
  }

  ghost predicate TotalOrder<T(!new)>(leq: (T, T) -> bool) {
    && TotalPreorder(leq)
    && (forall x, y :: leq(x, y) && leq(y, x) ==> x == y)
  }

  ghost predicate SortedBy<T>(s: seq<T>, leq: (T, T) -> bool) {
    forall i, j :: 0 <= i < j < |s| ==> leq(s[i], s[j])
  }

  ghost predicate Distinct<T>(s: seq<T>) {
    forall i, j :: 0 <= i < j < |s| ==> s[i] != s[j]
  }

  ghost predicate Ascending<T>(s: seq<T>, leq: (T, T) -> bool) {
    SortedBy(s, leq) && Distinct(s)
  }

  ghost predicate SameElements<T(!new)>(a: seq<T>, b: seq<T>) {
    forall x :: x in a <==> x in b
  }

  // ---------------------------------------------------------------- stable sort

  function Insert<T>(x: T, s: seq<T>, leq: (T, T) -> bool): seq<T> {
    if s == [] then [x]
    else if leq(x, s[0]) then [x] + s
    else [s[0]] + Insert(x, s[1..], leq)
  }

  function Sort<T>(s: seq<T>, leq: (T, T) -> bool): seq<T> {
    if s == [] then [] else Insert(s[0], Sort(s[1..], leq), leq)
  }

  lemma {:induction false} InsertElements<T>(x: T, s: seq<T>, leq: (T, T) -> bool)
    ensures multiset(Insert(x, s, leq)) == multiset{x} + multiset(s)
  {
    if s != [] {
      assert s == [s[0]] + s[1..];
      if !leq(x, s[0]) {
        InsertElements(x, s[1..], leq);
      }
    }
  }

  lemma SortedCons<T(!new)>(x: T, s: seq<T>, leq: (T, T) -> bool)
    requires SortedBy(s, leq) && (forall y :: y in s ==> leq(x, y))
    ensures SortedBy([x] + s, leq)
  {
  }

  lemma {:induction false} InsertSorted<T(!new)>(x: T, s: seq<T>, leq: (T, T) -> bool)
    requires TotalPreorder(leq) && SortedBy(s, leq)
    ensures SortedBy(Insert(x, s, leq), leq)
  {
    if s != [] {
      if leq(x, s[0]) {
        forall y | y in s ensures leq(x, y) {
          var k :| 0 <= k < |s| && s[k] == y;
          assert leq(s[0], s[0]) && leq(s[0], y);
        }
        SortedCons(x, s, leq);
      } else {
        InsertSorted(x, s[1..], leq);
        var r := Insert(x, s[1..], leq);
        forall y | y in r ensures leq(s[0], y) {
          InsertElements(x, s[1..], leq);
          assert y in multiset(r);
          assert y == x || y in s[1..];
        }
        SortedCons(s[0], r, leq);
      }
    }
  }

  lemma {:induction false} SortKeeps<T>(s: seq<T>, leq: (T, T) -> bool)
    ensures multiset(Sort(s, leq)) == multiset(s)
  {
    if s != [] {
      SortKeeps(s[1..], leq);
      InsertElements(s[0], Sort(s[1..], leq), leq);
      assert s == [s[0]] + s[1..];
    }
  }

  lemma {:induction false} SortOrders<T(!new)>(s: seq<T>, leq: (T, T) -> bool)
    requires TotalPreorder(leq)
    ensures SortedBy(Sort(s, leq), leq)
  {
    if s != [] {
      SortOrders(s[1..], leq);
      InsertSorted(s[0], Sort(s[1..], leq), leq);
    }
  }

  /** A sort returns the same elements, each as often, in order. */
  lemma SortSorts<T(!new)>(s: seq<T>, leq: (T, T) -> bool)
    requires TotalPreorder(leq)
    ensures SortedBy(Sort(s, leq), leq)
    ensures multiset(Sort(s, leq)) == multiset(s)
    ensures |Sort(s, leq)| == |s|
    ensures SameElements(Sort(s, leq), s)
  {
    SortOrders(s, leq);
    SortKeeps(s, leq);
    SameMultisetSameLength(Sort(s, leq), s);
  }

  function Tie<T>(y: T, x: T, leq: (T, T) -> bool): seq<T> {
    if leq(y, x) && leq(x, y) then [y] else []
  }

  /** The elements of `s` that tie with `x`, in their order in `s`. */
  function Ties<T>(s: seq<T>, x: T, leq: (T, T) -> bool): seq<T> {
    if s == [] then [] else Tie(s[0], x, leq) + Ties(s[1..], x, leq)
  }

  lemma TiesCons<T>(y: T, s: seq<T>, x: T, leq: (T, T) -> bool)
    ensures Ties([y] + s, x, leq) == Tie(y, x, leq) + Ties(s, x, leq)
  {
    assert ([y] + s)[1..] == s;
  }

  /** Elements out of order do not tie with the same element, so their ties may be swapped. */
  lemma TiesSwap<T(!new)>(y: T, z: T, rest: seq<T>, x: T, leq: (T, T) -> bool)
    requires TotalPreorder(leq) && !leq(y, z)
    ensures Tie(z, x, leq) + (Tie(y, x, leq) + rest) == Tie(y, x, leq) + (Tie(z, x, leq) + rest)
  {
    assert Tie(y, x, leq) == [] || Tie(z, x, leq) == [];
  }

  lemma {:induction false} InsertStable<T(!new)>(y: T, s: seq<T>, x: T, leq: (T, T) -> bool)
    requires TotalPreorder(leq)
    ensures Ties(Insert(y, s, leq), x, leq) == Tie(y, x, leq) + Ties(s, x, leq)
  {
    if s == [] || leq(y, s[0]) {
      TiesCons(y, s, x, leq);
      assert [y] + [] == [y];
    } else {
      InsertStable(y, s[1..], x, leq);
      TiesCons(s[0], Insert(y, s[1..], leq), x, leq);
      TiesSwap(y, s[0], Ties(s[1..], x, leq), x, leq);
    }
  }

  /** A sort is stable: elements that tie keep their order. */
  lemma {:induction false} SortStable<T(!new)>(s: seq<T>, x: T, leq: (T, T) -> bool)
    requires TotalPreorder(leq)
    ensures Ties(Sort(s, leq), x, leq) == Ties(s, x, leq)
  {
    if s != [] {
      SortStable(s[1..], x, leq);
      InsertStable(s[0], Sort(s[1..], leq), x, leq);
    }
  }

  /** Sorting what is already in order changes nothing. */
  lemma {:induction false} SortFixpoint<T(!new)>(s: seq<T>, leq: (T, T) -> bool)
    requires SortedBy(s, leq)
    ensures Sort(s, leq) == s
  {
    if s != [] {
      SortFixpoint(s[1..], leq);
      assert s == [s[0]] + s[1..];
      if |s| > 1 { assert leq(s[0], s[1]); }
    }
  }

  lemma FirstOfSorted<T(!new)>(a: seq<T>, y: T, leq: (T, T) -> bool)
    requires SortedBy(a, leq) && TotalPreorder(leq) && y in a
    ensures leq(a[0], y)
  {
    var k :| 0 <= k < |a| && a[k] == y;
    assert leq(a[0], a[0]);
  }

  lemma SameMultisetSameLength<T>(a: seq<T>, b: seq<T>)
    requires multiset(a) == multiset(b)
    ensures |a| == |b|
    ensures forall x :: x in a <==> x in b
  {
    assert |multiset(a)| == |multiset(b)|;
    forall x ensures x in a <==> x in b {
      assert x in multiset(a) <==> x in multiset(b);
    }
  }

  lemma MiddleOut<T>(b: seq<T>, k: nat)
    requires k < |b|
    ensures b == b[..k] + ([b[k]] + b[k + 1..])
    ensures multiset(b) == multiset{b[k]} + multiset(b[..k] + b[k + 1..])
  {
    assert b == b[..k] + ([b[k]] + b[k + 1..]);
    assert multiset([b[k]] + b[k + 1..]) == multiset{b[k]} + multiset(b[k + 1..]);
  }

  /** The first element of one arrangement, taken out of another. */
  lemma TakeOut<T(!new)>(a: seq<T>, b: seq<T>) returns (k: nat)
    requires a != [] && multiset(a) == multiset(b)
    ensures k < |b| && b[k] == a[0] && b == b[..k] + ([b[k]] + b[k + 1..])
    ensures multiset(a[1..]) == multiset(b[..k] + b[k + 1..])
  {
    SameMultisetSameLength(a, b);
    assert a[0] in b;
    k :| 0 <= k < |b| && b[k] == a[0];
    MiddleOut(b, k);
    MiddleOut(a, 0);
    assert a[..0] + a[1..] == a[1..];
    CancelOne(a[0], multiset(a[1..]), multiset(b[..k] + b[k + 1..]));
  }

  lemma CancelOne<T>(x: T, m: multiset<T>, n: multiset<T>)
    requires multiset{x} + m == multiset{x} + n
    ensures m == n
  {
    assert m == (multiset{x} + m) - multiset{x} && n == (multiset{x} + n) - multiset{x};
  }

  /** Ordered listings of the same elements are equal when no two different elements tie. */
  lemma {:induction false} SortedUnique<T(!new)>(a: seq<T>, b: seq<T>, leq: (T, T) -> bool)
    requires SortedBy(a, leq) && SortedBy(b, leq)
    requires TotalPreorder(leq)
    requires multiset(a) == multiset(b)
    requires forall x, y :: x in a && y in a && leq(x, y) && leq(y, x) ==> x == y
    ensures a == b
  {
    SameMultisetSameLength(a, b);
    if a != [] {
      FirstOfSorted(a, b[0], leq);
      FirstOfSorted(b, a[0], leq);
      assert a[0] == b[0];
      assert a == [a[0]] + a[1..] && b == [b[0]] + b[1..];
      CancelOne(a[0], multiset(a[1..]), multiset(b[1..]));
      assert forall x :: x in a[1..] ==> x in a;
      SortedUnique(a[1..], b[1..], leq);
    }
  }

  lemma {:induction false} DistinctCounts<T>(s: seq<T>, x: T)
    requires Distinct(s)
    ensures multiset(s)[x] == if x in s then 1 else 0
  {
    if s != [] {
      assert s == [s[0]] + s[1..];
      DistinctCounts(s[1..], x);
    }
  }

  lemma {:induction false} OnceMeansDistinct<T(!new)>(s: seq<T>)
    requires forall x :: multiset(s)[x] <= 1
    ensures Distinct(s)
  {
    if s != [] {
      assert s == [s[0]] + s[1..];
      assert multiset(s) == multiset{s[0]} + multiset(s[1..]);
      forall x ensures multiset(s[1..])[x] <= 1 { assert multiset(s)[x] <= 1; }
      OnceMeansDistinct(s[1..]);
      assert multiset(s)[s[0]] == 1 + multiset(s[1..])[s[0]];
    }
  }

  /** A rearrangement of distinct elements is distinct. */
  lemma DistinctFromMultiset<T(!new)>(a: seq<T>, b: seq<T>)
    requires Distinct(a) && multiset(a) == multiset(b)
    ensures Distinct(b)
  {
    forall x ensures multiset(b)[x] <= 1 { DistinctCounts(a, x); }
    OnceMeansDistinct(b);
  }

  // ------------------------------------------------------- ascending set listing

  ghost predicate IsLeast<T>(m: T, s: set<T>, leq: (T, T) -> bool) {
    m in s && forall y :: y in s ==> leq(m, y)
  }

  lemma {:induction false} LeastExists<T(!new)>(s: set<T>, leq: (T, T) -> bool)
    requires TotalPreorder(leq) && s != {}
    ensures exists m :: IsLeast(m, s, leq)
  {
    var x :| x in s;
    if s == {x} {
      assert leq(x, x);
      assert IsLeast(x, s, leq);
    } else {
      LeastExists(s - {x}, leq);
      var m :| IsLeast(m, s - {x}, leq);
      assert leq(x, x);
      if leq(m, x) { assert IsLeast(m, s, leq); } else { assert IsLeast(x, s, leq); }
    }
  }

  function Least<T(==, !new)>(s: set<T>, leq: (T, T) -> bool): (m: T)
    requires TotalOrder(leq) && s != {}
    ensures m in s && forall y :: y in s ==> leq(m, y)
  {
    LeastExists(s, leq);
    var m :| m in s && forall y :: y in s ==> leq(m, y);
    m
  }

  /** `sorted(s)` for a set `s`. */
  function SortSet<T(==, !new)>(s: set<T>, leq: (T, T) -> bool): seq<T>
    requires TotalOrder(leq)
  {
    if s == {} then [] else [Least(s, leq)] + SortSet(s - {Least(s, leq)}, leq)
  }

  /** The listing is ascending and holds each element of the set once. */
  lemma {:induction false} SortSetLists<T(!new)>(s: set<T>, leq: (T, T) -> bool)
    requires TotalOrder(leq)
    ensures Ascending(SortSet(s, leq), leq)
    ensures forall x :: x in SortSet(s, leq) <==> x in s
    ensures |SortSet(s, leq)| == |s|
  {
    if s != {} {
      var m := Least(s, leq);
      var rest := SortSet(s - {m}, leq);
      SortSetLists(s - {m}, leq);
      SortedCons(m, rest, leq);
      assert s == {m} + (s - {m});
    }
  }

  /** Ascending listings of the same elements are equal. */
  lemma {:induction false} AscendingUnique<T(!new)>(a: seq<T>, b: seq<T>, leq: (T, T) -> bool)
    requires TotalOrder(leq)
    requires Ascending(a, leq) && Ascending(b, leq) && SameElements(a, b)
    ensures a == b
  {
    assert (|a| > 0 ==> a[0] in b) && (|b| > 0 ==> b[0] in a);
    if a != [] {
      assert a[0] in b;
      assert b[0] in a;
      assert leq(a[0], a[0]);
      assert a[0] == b[0];
      forall x ensures x in a[1..] <==> x in b[1..] {
        if x in a[1..] { assert x in a && x != a[0]; assert x in b; }
        if x in b[1..] { assert x in b && x != b[0]; assert x in a; }
      }
      AscendingUnique(a[1..], b[1..], leq);
    }
  }

  // --------------------------------------------------------- lexicographic order

  predicate LexLeq<T(==)>(a: seq<T>, b: seq<T>, leq: (T, T) -> bool) {
    if a == [] then true
    else if b == [] then false
    else if a[0] != b[0] then leq(a[0], b[0])
    else LexLeq(a[1..], b[1..], leq)
  }

  lemma {:induction false} LexTotalAntisymmetric<T(!new)>(a: seq<T>, b: seq<T>, leq: (T, T) -> bool)
    requires TotalOrder(leq)
    ensures LexLeq(a, b, leq) || LexLeq(b, a, leq)
    ensures LexLeq(a, b, leq) && LexLeq(b, a, leq) ==> a == b
  {
    if a != [] && b != [] && a[0] == b[0] {
      LexTotalAntisymmetric(a[1..], b[1..], leq);
      assert a == [a[0]] + a[1..] && b == [b[0]] + b[1..];
    }
  }

  lemma {:induction false} LexTransitive<T(!new)>(a: seq<T>, b: seq<T>, c: seq<T>, leq: (T, T) -> bool)
    requires TotalOrder(leq)
    requires LexLeq(a, b, leq) && LexLeq(b, c, leq)
    ensures LexLeq(a, c, leq)
  {
    if a != [] && b != [] && c != [] && a[0] == b[0] && b[0] == c[0] {
      LexTransitive(a[1..], b[1..], c[1..], leq);
    }
  }

  predicate CharLeq(a: char, b: char) { a <= b }

  /** Python's order on strings: code point by code point. */
  predicate StrLeq(a: string, b: string) { LexLeq(a, b, CharLeq) }

  /** Python's order on tuples of strings. */
  predicate KeyLeq(a: seq<string>, b: seq<string>) { LexLeq(a, b, StrLeq) }

  lemma StrOrder()
    ensures TotalOrder(StrLeq)
  {
    assert TotalOrder(CharLeq);
    forall a, b ensures (StrLeq(a, b) || StrLeq(b, a)) && (StrLeq(a, b) && StrLeq(b, a) ==> a == b) {
      LexTotalAntisymmetric(a, b, CharLeq);
    }
    forall a, b, c | StrLeq(a, b) && StrLeq(b, c) ensures StrLeq(a, c) {
      LexTransitive(a, b, c, CharLeq);
    }
  }

  lemma KeyOrder()
    ensures TotalOrder(KeyLeq)
  {
    StrOrder();
    forall a, b ensures (KeyLeq(a, b) || KeyLeq(b, a)) && (KeyLeq(a, b) && KeyLeq(b, a) ==> a == b) {
      LexTotalAntisymmetric(a, b, StrLeq);
    }
    forall a, b, c | KeyLeq(a, b) && KeyLeq(b, c) ensures KeyLeq(a, c) {
      LexTransitive(a, b, c, StrLeq);
    }
  }

  /** `sorted(s)` for a set of strings. */
  function SortedStrings(s: set<string>): seq<string> {
    StrOrder();
    SortSet(s, StrLeq)
  }

  lemma SortedStringsLists(s: set<string>)
    ensures Ascending(SortedStrings(s), StrLeq)
    ensures forall x :: x in SortedStrings(s) <==> x in s
    ensures |SortedStrings(s)| == |s|
  {
    StrOrder();
    SortSetLists(s, StrLeq);
  }

  /** `sorted(xs)` for a list of strings. */
  function Sorted(s: seq<string>): seq<string> { Sort(s, StrLeq) }

  lemma SortedRearranges(s: seq<string>)
    ensures SortedBy(Sorted(s), StrLeq) && multiset(Sorted(s)) == multiset(s)
    ensures |Sorted(s)| == |s| && forall x :: x in Sorted(s) <==> x in s
  {
    StrOrder();
    SortSorts(s, StrLeq);
  }

  // ------------------------------------------------------------------------- pieces

  /** A prefix, one element longer. */
  lemma Prefix<T>(s: seq<T>, i: nat)
    requires i < |s|
    ensures s[..i + 1] == s[..i] + [s[i]] && s[..i + 1][..i] == s[..i]
    ensures s[..|s|] == s
  {
  }

  lemma Snoc<T>(s: seq<T>, x: T)
    ensures (s + [x])[..|s|] == s && s + [] == s
  {
  }

  /** The last element of an append, and what comes before it. */
  lemma AppendLast<T>(a: seq<T>, b: seq<T>)
    requires b != []
    ensures (a + b)[..|a + b| - 1] == a + b[..|b| - 1] && (a + b)[|a + b| - 1] == b[|b| - 1]
  {
  }

  lemma AppendEmpty<T>(a: seq<T>)
    ensures a + [] == a
  {
  }

  lemma AppendAssociates<T>(a: seq<T>, b: seq<T>, c: seq<T>)
    ensures (a + b) + c == a + (b + c)
  {
  }

  /** How many elements satisfy a test. */
  function Count<T>(s: seq<T>, test: T -> bool): nat {
    if s == [] then 0 else Count(s[..|s| - 1], test) + (if test(s[|s| - 1]) then 1 else 0)
  }

  // ------------------------------------------------------------------- occurrences

  /** `xs.index(x)` */
  function FirstIndex<T(==)>(s: seq<T>, x: T): (i: nat)
    requires x in s
    ensures i < |s| && s[i] == x && x !in s[..i]
  {
    if s[0] == x then 0 else 1 + FirstIndex(s[1..], x)
  }

  /** Each element once, where it first occurs. */
  function FirstOccurrences<T(==, !new)>(s: seq<T>): (r: seq<T>)
    ensures forall x :: x in r <==> x in s
  {
    if s == [] then []
    else
      var before, last := FirstOccurrences(s[..|s| - 1]), s[|s| - 1];
      assert s == s[..|s| - 1] + [last];
      if last in before then before else before + [last]
  }

  lemma {:induction false} FirstOccurrencesDistinct<T(!new)>(s: seq<T>)
    ensures Distinct(FirstOccurrences(s))
  {
    if s != [] { FirstOccurrencesDistinct(s[..|s| - 1]); }
  }

  /** They keep the order in which the elements first occur. */
  lemma {:induction false} FirstOccurrencesOrder<T(!new)>(s: seq<T>, i: nat, j: nat)
    requires i < j < |FirstOccurrences(s)|
    ensures FirstIndex(s, FirstOccurrences(s)[i]) < FirstIndex(s, FirstOccurrences(s)[j])
  {
    var init, r := s[..|s| - 1], FirstOccurrences(s);
    var before := FirstOccurrences(init);
    assert s == init + [s[|s| - 1]];
    FirstOccurrencesDistinct(s);
    FirstIndexExtends(init, s[|s| - 1], r[i]);
    if j < |before| {
      FirstOccurrencesOrder(init, i, j);
      FirstIndexExtends(init, s[|s| - 1], r[j]);
    } else {
      assert r[j] !in init;
    }
  }

  lemma {:induction false} FirstIndexExtends<T>(s: seq<T>, last: T, x: T)
    requires x in s
    ensures FirstIndex(s + [last], x) == FirstIndex(s, x)
  {
    if s[0] != x {
      assert (s + [last])[1..] == s[1..] + [last];
      FirstIndexExtends(s[1..], last, x);
    }
  }

  lemma CountAppend<T>(a: seq<T>, b: seq<T>, x: T)
    ensures multiset(a + b)[x] == multiset(a)[x] + multiset(b)[x]
  {
  }

  /** The elements of a list, as Python's `set(xs)`. */
  function SetOf<T(==)>(s: seq<T>): set<T> {
    set x | x in s
  }
}
