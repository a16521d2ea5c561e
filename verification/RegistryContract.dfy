/** The registry contract both D3L reports read their universe from (scripts/build_d3l_registry_contract.py). */
module RegistryContract {
  import opened Ordering

  /** The system ids of the parsed registry's three lists. */
  datatype Registry = Registry(active: seq<string>, future: seq<string>, demoted: seq<string>)

  datatype Contract = Contract(
    active: seq<string>, future: seq<string>, demoted: seq<string>, excluded: seq<string>,
    rankingUniverse: seq<string>, maturityUniverse: seq<string>)

  /** `build_contract` */
  function BuildContract(g: Registry): Contract {
    Contract(
      Sorted(g.active), Sorted(g.future), Sorted(g.demoted), Sorted(g.future + g.demoted),
      Sorted(g.active), Sorted(g.active))
  }

  lemma SortedIndependent(a: seq<string>, b: seq<string>)
    requires multiset(a) == multiset(b)
    ensures Sorted(a) == Sorted(b)
  {
    SortedRearranges(a);
    SortedRearranges(b);
    StrOrder();
    SortedUnique(Sorted(a), Sorted(b), StrLeq);
  }

  /** The contract does not depend on the order of the registry's lists. */
  lemma ContractOrderIndependent(a: Registry, b: Registry)
    requires multiset(a.active) == multiset(b.active) && multiset(a.future) == multiset(b.future)
    requires multiset(a.demoted) == multiset(b.demoted)
    ensures BuildContract(a) == BuildContract(b)
  {
    SortedIndependent(a.active, b.active);
    SortedIndependent(a.future, b.future);
    SortedIndependent(a.demoted, b.demoted);
    SortedIndependent(a.future + a.demoted, b.future + b.demoted);
  }

  /** The rule the contract carries: no future, demoted or merged id is in either universe. */
  ghost predicate UniverseRule(c: Contract) {
    forall x :: x in c.excluded ==> x !in c.rankingUniverse && x !in c.maturityUniverse
  }

  /** The contract keeps its own rule exactly when the registry's active list shares no id with the other two. */
  lemma UniverseRuleIff(g: Registry)
    ensures UniverseRule(BuildContract(g)) <==> forall x :: x in g.active ==> x !in g.future && x !in g.demoted
  {
    SortedRearranges(g.active);
    SortedRearranges(g.future + g.demoted);
    var c := BuildContract(g);
    assert forall x :: x in c.excluded <==> x in g.future || x in g.demoted;
    assert UniverseRule(c) ==> forall x :: x in g.active ==> x !in g.future && x !in g.demoted by {
      assert forall x :: x in g.active ==> x in c.rankingUniverse;
    }
  }

  /** Each active id is in each universe as often as in the registry. */
  lemma UniverseIsActive(g: Registry)
    ensures BuildContract(g).rankingUniverse == BuildContract(g).maturityUniverse == BuildContract(g).active
    ensures multiset(BuildContract(g).rankingUniverse) == multiset(g.active)
    ensures Distinct(BuildContract(g).rankingUniverse) <==> Distinct(g.active)
  {
    SortedRearranges(g.active);
    if Distinct(g.active) { DistinctFromMultiset(g.active, Sorted(g.active)); }
    if Distinct(Sorted(g.active)) { DistinctFromMultiset(Sorted(g.active), g.active); }
  }
}
