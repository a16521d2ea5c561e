/** The ecosystem dependency graph (scripts/build_dependency_graph.py): systems, artifact nodes, and the edges between
    them. */
module DependencyGraph {
  import opened Wrappers
  import opened Ordering

  datatype System = System(systemId: string, loop: string, consumes: seq<string>, emits: seq<string>,
    contracts: seq<string>)

  datatype Kind = SystemNode | ArtifactNode | ContractNode

  datatype Relation = Emits | Consumes | DependsOn | ParticipatesIn | ValidatesAgainst | GovernedBy

  datatype Edge = Edge(fromKind: Kind, fromId: string, relation: Relation, toKind: Kind, toId: string)

  datatype Node = Node(artifactType: string, producing: seq<string>, consuming: seq<string>)

  datatype Graph = Graph(systems: seq<System>, nodes: seq<Node>, contracts: seq<string>, edges: seq<Edge>)

  const EXPLICIT_TYPES: set<string> := {
    "transcript", "meeting_minutes_record", "meeting_minutes_docx", "working_paper_input", "reviewer_comment_set",
    "comment_resolution_matrix", "comment_resolution_matrix_spreadsheet", "adjudicated_matrix", "updated_working_paper",
    "program_brief", "study_readiness_assessment", "next_best_action_memo"}

  const LOOP_TYPES: set<string> := {"coordination_loop", "document_production_loop", "cross_loop", "governance_loop"}

  /** LOOP_ARTIFACTS */
  function LoopTarget(alignment: string): (r: Option<string>)
    ensures r.Some? ==> r.value in LOOP_TYPES
  {
    if alignment == "coordination" then Some("coordination_loop")
    else if alignment == "document_production" then Some("document_production_loop")
    else if alignment == "cross_loop" then Some("cross_loop")
    else if alignment == "governance" then Some("governance_loop")
    else None
  }

  // --------------------------------------------------------------------- extraction

  function Extracted(s: System): System {
    s.(consumes := SortedStrings(SetOf(s.consumes)), emits := SortedStrings(SetOf(s.emits)),
       contracts := SortedStrings(SetOf(s.contracts)))
  }

  predicate SystemLeq(a: System, b: System) { StrLeq(a.systemId, b.systemId) }

  function ExtractedAll(registry: seq<System>): (r: seq<System>)
    ensures |r| == |registry| && forall i :: 0 <= i < |r| ==> r[i] == Extracted(registry[i])
  {
    seq(|registry|, i requires 0 <= i < |registry| => Extracted(registry[i]))
  }

  /** `extract_systems` */
  method ExtractSystems(registry: seq<System>) returns (systems: seq<System>)
    ensures systems == Sort(ExtractedAll(registry), SystemLeq)
  {
    systems := [];
    for i := 0 to |registry|
      invariant |systems| == i && forall k :: 0 <= k < i ==> systems[k] == Extracted(registry[k])
    {
      systems := systems + [Extracted(registry[i])];
    }
    assert systems == ExtractedAll(registry);
    systems := Sort(systems, SystemLeq);
  }

  lemma SystemOrder()
    ensures TotalPreorder(SystemLeq)
  {
    StrOrder();
    forall a, b ensures SystemLeq(a, b) || SystemLeq(b, a) {
      assert StrLeq(a.systemId, b.systemId) || StrLeq(b.systemId, a.systemId);
    }
    forall a, b, c | SystemLeq(a, b) && SystemLeq(b, c) ensures SystemLeq(a, c) {
      assert StrLeq(a.systemId, b.systemId) && StrLeq(b.systemId, c.systemId);
    }
  }

  // ------------------------------------------------------------------------- edges

  function SystemEdges(s: System): set<Edge> {
    (set a | a in s.emits :: Edge(SystemNode, s.systemId, Emits, ArtifactNode, a))
    + (set a | a in s.consumes :: Edge(SystemNode, s.systemId, Consumes, ArtifactNode, a))
    + (set c | c in s.contracts :: Edge(SystemNode, s.systemId, DependsOn, ContractNode, c))
    + match LoopTarget(s.loop)
      case None => {}
      case Some(target) => {Edge(SystemNode, s.systemId, ParticipatesIn, ArtifactNode, target)}
  }

  function ContractEdges(c: string): set<Edge> {
    {Edge(ContractNode, c, ValidatesAgainst, ArtifactNode, c), Edge(ArtifactNode, c, GovernedBy, ContractNode, c)}
  }

  function AllEdges(systems: seq<System>, contracts: seq<string>): set<Edge> {
    (set s, e | s in systems && e in SystemEdges(s) :: e) + (set c, e | c in contracts && e in ContractEdges(c) :: e)
  }

  function KindText(k: Kind): string {
    match k
    case SystemNode => "system"
    case ArtifactNode => "artifact"
    case ContractNode => "contract"
  }

  function RelationText(r: Relation): string {
    match r
    case Emits => "emits"
    case Consumes => "consumes"
    case DependsOn => "depends_on"
    case ParticipatesIn => "participates_in"
    case ValidatesAgainst => "validates_against"
    case GovernedBy => "governed_by"
  }

  /** The sort key of line 260. */
  function EdgeKey(e: Edge): seq<string> {
    [KindText(e.fromKind), e.fromId, RelationText(e.relation), KindText(e.toKind), e.toId]
  }

  predicate EdgeLeq(a: Edge, b: Edge) { KeyLeq(EdgeKey(a), EdgeKey(b)) }

  lemma TextsDiffer(k: Kind, l: Kind, r: Relation, q: Relation)
    ensures KindText(k) == KindText(l) ==> k == l
    ensures RelationText(r) == RelationText(q) ==> r == q
  {
    assert KindText(ArtifactNode)[0] != KindText(ContractNode)[0];
    assert |KindText(SystemNode)| == 6;
    assert |RelationText(Emits)| == 5 && |RelationText(Consumes)| == 8 && |RelationText(DependsOn)| == 10;
    assert |RelationText(ParticipatesIn)| == 15 && |RelationText(ValidatesAgainst)| == 17
        && |RelationText(GovernedBy)| == 11;
  }

  lemma EdgeOrder()
    ensures TotalOrder(EdgeLeq)
  {
    KeyOrder();
    forall a, b ensures EdgeLeq(a, b) || EdgeLeq(b, a) {
      assert KeyLeq(EdgeKey(a), EdgeKey(b)) || KeyLeq(EdgeKey(b), EdgeKey(a));
    }
    forall a, b | EdgeLeq(a, b) && EdgeLeq(b, a) ensures a == b {
      var x, y := EdgeKey(a), EdgeKey(b);
      assert x == y;
      assert x[0] == y[0] && x[1] == y[1] && x[2] == y[2] && x[3] == y[3] && x[4] == y[4];
      TextsDiffer(a.fromKind, b.fromKind, a.relation, b.relation);
      TextsDiffer(a.toKind, b.toKind, a.relation, b.relation);
    }
    forall a, b, c | EdgeLeq(a, b) && EdgeLeq(b, c) ensures EdgeLeq(a, c) {
      assert KeyLeq(EdgeKey(a), EdgeKey(b)) && KeyLeq(EdgeKey(b), EdgeKey(c));
    }
  }

  /** The edge list of a set of edges. */
  function SortedEdges(edges: set<Edge>): seq<Edge> {
    EdgeOrder();
    SortSet(edges, EdgeLeq)
  }

  function EdgesTo(id: string, relation: Relation, kind: Kind, targets: seq<string>): set<Edge> {
    set t | t in targets :: Edge(SystemNode, id, relation, kind, t)
  }

  /** The `seen` set and the `edges` list of `build_edges`. */
  class EdgeCollector {
    var seen: set<Edge>
    var edges: seq<Edge>

    ghost predicate Valid()
      reads this
    {
      SetOf(edges) == seen && Distinct(edges)
    }

    constructor ()
      ensures Valid() && seen == {}
    {
      seen, edges := {}, [];
    }

    /** `add_edge` */
    method AddEdge(e: Edge)
      requires Valid()
      modifies this
      ensures Valid() && seen == old(seen) + {e}
    {
      if e in seen { return; }
      seen := seen + {e};
      edges := edges + [e];
    }

    /** The edges of one relation from a system to each of the targets. */
    method AddEach(id: string, relation: Relation, kind: Kind, targets: seq<string>)
      requires Valid()
      modifies this
      ensures Valid() && seen == old(seen) + EdgesTo(id, relation, kind, targets)
    {
      for i := 0 to |targets|
        invariant Valid() && seen == old(seen) + EdgesTo(id, relation, kind, targets[..i])
      {
        Prefix(targets, i);
        AddEdge(Edge(SystemNode, id, relation, kind, targets[i]));
      }
      assert targets[..|targets|] == targets;
    }

    method AddSystem(s: System)
      requires Valid()
      modifies this
      ensures Valid() && seen == old(seen) + SystemEdges(s)
    {
      AddEach(s.systemId, Emits, ArtifactNode, s.emits);
      AddEach(s.systemId, Consumes, ArtifactNode, s.consumes);
      AddEach(s.systemId, DependsOn, ContractNode, s.contracts);
      var target := LoopTarget(s.loop);
      if target.Some? { AddEdge(Edge(SystemNode, s.systemId, ParticipatesIn, ArtifactNode, target.value)); }
    }

    method AddContract(c: string)
      requires Valid()
      modifies this
      ensures Valid() && seen == old(seen) + ContractEdges(c)
    {
      AddEdge(Edge(ContractNode, c, ValidatesAgainst, ArtifactNode, c));
      AddEdge(Edge(ArtifactNode, c, GovernedBy, ContractNode, c));
    }
  }

  lemma MoreSystems(systems: seq<System>, s: System, contracts: seq<string>)
    ensures AllEdges(systems + [s], contracts) == AllEdges(systems, contracts) + SystemEdges(s)
  {
    assert s in systems + [s];
  }

  lemma MoreContracts(systems: seq<System>, contracts: seq<string>, c: string)
    ensures AllEdges(systems, contracts + [c]) == AllEdges(systems, contracts) + ContractEdges(c)
  {
    assert c in contracts + [c];
  }

  /** `build_edges`: every edge once, in key order. */
  method BuildEdges(systems: seq<System>, contracts: seq<string>) returns (edges: seq<Edge>)
    ensures edges == SortedEdges(AllEdges(systems, contracts))
  {
    var c := new EdgeCollector();
    for i := 0 to |systems|
      invariant c.Valid() && fresh(c) && c.seen == AllEdges(systems[..i], [])
    {
      assert systems[..i + 1] == systems[..i] + [systems[i]];
      MoreSystems(systems[..i], systems[i], []);
      c.AddSystem(systems[i]);
    }
    assert systems[..|systems|] == systems;
    for i := 0 to |contracts|
      invariant c.Valid() && fresh(c) && c.seen == AllEdges(systems, contracts[..i])
    {
      assert contracts[..i + 1] == contracts[..i] + [contracts[i]];
      MoreContracts(systems, contracts[..i], contracts[i]);
      c.AddContract(contracts[i]);
    }
    assert contracts[..|contracts|] == contracts;
    edges := Sort(c.edges, EdgeLeq);
    SortDistinctIsListing(c.edges);
  }

  lemma SortDistinctIsListing(edges: seq<Edge>)
    requires Distinct(edges)
    ensures Sort(edges, EdgeLeq) == SortedEdges(SetOf(edges))
  {
    EdgeOrder();
    SortSorts(edges, EdgeLeq);
    SortSetLists(SetOf(edges), EdgeLeq);
    DistinctFromMultiset(edges, Sort(edges, EdgeLeq));
    AscendingUnique(Sort(edges, EdgeLeq), SortSet(SetOf(edges), EdgeLeq), EdgeLeq);
  }

  // -------------------------------------------------------------------------- nodes

  function Producers(systems: seq<System>, artifact: string): set<string> {
    set s | s in systems && artifact in s.emits :: s.systemId
  }

  function Consumers(systems: seq<System>, artifact: string): set<string> {
    set s | s in systems && artifact in s.consumes :: s.systemId
  }

  /** `collect_artifact_types` */
  function ArtifactTypes(systems: seq<System>, contracts: seq<string>): set<string> {
    EXPLICIT_TYPES
    + (set s, a | s in systems && a in s.consumes :: a) + (set s, a | s in systems && a in s.emits :: a)
    + SetOf(contracts) + LOOP_TYPES
  }

  type Index = map<string, set<string>>

  function In(index: Index, artifact: string): set<string> { if artifact in index then index[artifact] else {} }

  function Add(index: Index, artifact: string, id: string): Index { index[artifact := In(index, artifact) + {id}] }

  lemma OneMoreSystem(systems: seq<System>, i: nat, a: string)
    requires i < |systems|
    ensures Producers(systems[..i + 1], a) == Producers(systems[..i], a)
        + (if a in systems[i].emits then {systems[i].systemId} else {})
    ensures Consumers(systems[..i + 1], a) == Consumers(systems[..i], a)
        + (if a in systems[i].consumes then {systems[i].systemId} else {})
  {
    assert systems[..i + 1] == systems[..i] + [systems[i]];
  }

  /** Lines 401-407: the producer and consumer maps. */
  method IndexSystems(systems: seq<System>) returns (producers: Index, consumers: Index)
    ensures forall a :: In(producers, a) == Producers(systems, a)
    ensures forall a :: In(consumers, a) == Consumers(systems, a)
  {
    producers, consumers := map[], map[];
    for i := 0 to |systems|
      invariant forall a :: In(producers, a) == Producers(systems[..i], a)
      invariant forall a :: In(consumers, a) == Consumers(systems[..i], a)
    {
      var s := systems[i];
      forall a
        ensures Producers(systems[..i + 1], a) == Producers(systems[..i], a)
            + (if a in s.emits then {s.systemId} else {})
        ensures Consumers(systems[..i + 1], a) == Consumers(systems[..i], a)
            + (if a in s.consumes then {s.systemId} else {})
      {
        OneMoreSystem(systems, i, a);
      }
      producers := IndexOne(producers, s.emits, s.systemId);
      consumers := IndexOne(consumers, s.consumes, s.systemId);
    }
    assert systems[..|systems|] == systems;
  }

  method IndexOne(index: Index, artifacts: seq<string>, id: string) returns (r: Index)
    ensures forall a :: In(r, a) == In(index, a) + (if a in artifacts then {id} else {})
  {
    r := index;
    for k := 0 to |artifacts|
      invariant forall a :: In(r, a) == In(index, a) + (if a in artifacts[..k] then {id} else {})
    {
      assert artifacts[..k + 1] == artifacts[..k] + [artifacts[k]];
      r := Add(r, artifacts[k], id);
    }
    assert artifacts[..|artifacts|] == artifacts;
  }

  function NodeOf(systems: seq<System>, artifact: string): Node {
    Node(artifact, SortedStrings(Producers(systems, artifact)), SortedStrings(Consumers(systems, artifact)))
  }

  function NodesOf(systems: seq<System>, types: seq<string>): (r: seq<Node>)
    ensures |r| == |types| && forall i :: 0 <= i < |r| ==> r[i] == NodeOf(systems, types[i])
  {
    seq(|types|, i requires 0 <= i < |types| => NodeOf(systems, types[i]))
  }

  /** The producer and consumer parts of `build_artifacts`. */
  method BuildNodes(
      types: set<string>, producers: Index, consumers: Index, ghost systems: seq<System>) returns (nodes: seq<Node>)
    requires forall a :: In(producers, a) == Producers(systems, a)
    requires forall a :: In(consumers, a) == Consumers(systems, a)
    ensures nodes == NodesOf(systems, SortedStrings(types))
  {
    var listed := SortedStrings(types);
    nodes := [];
    for i := 0 to |listed|
      invariant |nodes| == i && forall k :: 0 <= k < i ==> nodes[k] == NodeOf(systems, listed[k])
    {
      var a := listed[i];
      nodes := nodes + [Node(a, SortedStrings(In(producers, a)), SortedStrings(In(consumers, a)))];
    }
  }

  function GraphOf(registry: seq<System>, contracts: seq<string>): Graph {
    var systems := Sort(ExtractedAll(registry), SystemLeq);
    var listed := Sort(contracts, StrLeq);
    Graph(systems, NodesOf(systems, SortedStrings(ArtifactTypes(systems, listed))), listed,
      SortedEdges(AllEdges(systems, listed)))
  }

  /** `main`, from the registry and the contract names of the standards manifest to the graph. */
  method BuildGraph(registry: seq<System>, contracts: seq<string>) returns (g: Graph)
    ensures g == GraphOf(registry, contracts)
  {
    var systems := ExtractSystems(registry);
    var listed := Sort(contracts, StrLeq);
    var producers, consumers := IndexSystems(systems);
    var nodes := BuildNodes(ArtifactTypes(systems, listed), producers, consumers, systems);
    var edges := BuildEdges(systems, listed);
    g := Graph(systems, nodes, listed, edges);
  }

  // -------------------------------------------------------------- the views agree

  lemma EdgesListed(systems: seq<System>, contracts: seq<string>)
    ensures Ascending(SortedEdges(AllEdges(systems, contracts)), EdgeLeq)
    ensures forall e :: e in SortedEdges(AllEdges(systems, contracts)) <==> e in AllEdges(systems, contracts)
  {
    EdgeOrder();
    SortSetLists(AllEdges(systems, contracts), EdgeLeq);
  }

  lemma EmitEdge(systems: seq<System>, contracts: seq<string>, s: System, a: string)
    requires s in systems
    ensures a in s.emits ==> Edge(SystemNode, s.systemId, Emits, ArtifactNode, a) in AllEdges(systems, contracts)
    ensures a in s.consumes ==> Edge(SystemNode, s.systemId, Consumes, ArtifactNode, a) in AllEdges(systems, contracts)
    ensures a in s.contracts ==>
        Edge(SystemNode, s.systemId, DependsOn, ContractNode, a) in AllEdges(systems, contracts)
  {
    assert a in s.emits ==> Edge(SystemNode, s.systemId, Emits, ArtifactNode, a) in SystemEdges(s);
    assert a in s.consumes ==> Edge(SystemNode, s.systemId, Consumes, ArtifactNode, a) in SystemEdges(s);
    assert a in s.contracts ==> Edge(SystemNode, s.systemId, DependsOn, ContractNode, a) in SystemEdges(s);
  }

  /** Where an edge comes from. */
  lemma EdgeOrigin(systems: seq<System>, contracts: seq<string>, e: Edge)
    requires e in AllEdges(systems, contracts)
    ensures match e.relation
            case Emits => e.toKind.ArtifactNode? && e.fromId in Producers(systems, e.toId)
            case Consumes => e.toKind.ArtifactNode? && e.fromId in Consumers(systems, e.toId)
            case DependsOn =>
              e.toKind.ContractNode?
              && exists s :: s in systems && s.systemId == e.fromId && e.toId in s.contracts
            case ParticipatesIn =>
              e.toKind.ArtifactNode? && e.toId in LOOP_TYPES && exists s :: s in systems && s.systemId == e.fromId
            case ValidatesAgainst => e.toKind.ArtifactNode? && e.fromId in contracts && e.toId == e.fromId
            case GovernedBy => e.toKind.ContractNode? && e.toId in contracts && e.toId == e.fromId
    ensures e.fromKind == if e.relation.ValidatesAgainst? then ContractNode
                          else if e.relation.GovernedBy? then ArtifactNode
                          else SystemNode
  {
    if s :| s in systems && e in SystemEdges(s) {
    } else {
      var c :| c in contracts && e in ContractEdges(c);
    }
  }

  function EmittersOf(edges: seq<Edge>, a: string): set<string> {
    set e | e in edges && e.relation.Emits? && e.toId == a :: e.fromId
  }

  function ConsumersOf(edges: seq<Edge>, a: string): set<string> {
    set e | e in edges && e.relation.Consumes? && e.toId == a :: e.fromId
  }

  lemma IndexAgreesWithEdges(systems: seq<System>, contracts: seq<string>, edges: seq<Edge>, a: string)
    requires forall e :: e in edges <==> e in AllEdges(systems, contracts)
    ensures EmittersOf(edges, a) == Producers(systems, a) && ConsumersOf(edges, a) == Consumers(systems, a)
  {
    forall id | id in Producers(systems, a) ensures id in EmittersOf(edges, a) {
      var s :| s in systems && a in s.emits && s.systemId == id;
      EmitEdge(systems, contracts, s, a);
      assert Edge(SystemNode, id, Emits, ArtifactNode, a) in edges;
    }
    forall id | id in Consumers(systems, a) ensures id in ConsumersOf(edges, a) {
      var s :| s in systems && a in s.consumes && s.systemId == id;
      EmitEdge(systems, contracts, s, a);
      assert Edge(SystemNode, id, Consumes, ArtifactNode, a) in edges;
    }
    forall id | id in EmittersOf(edges, a) ensures id in Producers(systems, a) {
      var e :| e in edges && e.relation.Emits? && e.toId == a && e.fromId == id;
      EdgeOrigin(systems, contracts, e);
    }
    forall id | id in ConsumersOf(edges, a) ensures id in Consumers(systems, a) {
      var e :| e in edges && e.relation.Consumes? && e.toId == a && e.fromId == id;
      EdgeOrigin(systems, contracts, e);
    }
  }

  /** Each node's producers and consumers are exactly, in order, the systems with an emits or consumes edge to it. */
  lemma NodesAgreeWithEdges(registry: seq<System>, contracts: seq<string>, node: Node)
    requires node in GraphOf(registry, contracts).nodes
    ensures var edges := GraphOf(registry, contracts).edges;
            && node.producing == SortedStrings(EmittersOf(edges, node.artifactType))
            && node.consuming == SortedStrings(ConsumersOf(edges, node.artifactType))
  {
    var g := GraphOf(registry, contracts);
    EdgesListed(g.systems, g.contracts);
    IndexAgreesWithEdges(g.systems, g.contracts, g.edges, node.artifactType);
  }

  predicate HasNode(g: Graph, kind: Kind, id: string) {
    match kind
    case SystemNode => exists s :: s in g.systems && s.systemId == id
    case ArtifactNode => exists n :: n in g.nodes && n.artifactType == id
    case ContractNode => id in g.contracts
  }

  lemma NodesListTypes(systems: seq<System>, types: set<string>, id: string)
    ensures (exists n :: n in NodesOf(systems, SortedStrings(types)) && n.artifactType == id) <==> id in types
  {
    var listed := SortedStrings(types);
    var nodes := NodesOf(systems, listed);
    SortedStringsLists(types);
    if id in listed {
      var k :| 0 <= k < |listed| && listed[k] == id;
      assert nodes[k].artifactType == id && nodes[k] in nodes;
    }
    if n :| n in nodes && n.artifactType == id {
      var k :| 0 <= k < |nodes| && nodes[k] == n;
      assert listed[k] == id;
    }
  }

  lemma ArtifactHasNode(registry: seq<System>, contracts: seq<string>, id: string)
    ensures var g := GraphOf(registry, contracts); HasNode(g, ArtifactNode, id) <==>
        id in ArtifactTypes(g.systems, g.contracts)
  {
    var g := GraphOf(registry, contracts);
    NodesListTypes(g.systems, ArtifactTypes(g.systems, g.contracts), id);
  }

  lemma TypesCover(systems: seq<System>, contracts: seq<string>, id: string)
    ensures Producers(systems, id) != {} || Consumers(systems, id) != {} || id in contracts || id in LOOP_TYPES
            ==> id in ArtifactTypes(systems, contracts)
  {
    if x :| x in Producers(systems, id) { var s :| s in systems && id in s.emits && s.systemId == x; }
    if x :| x in Consumers(systems, id) { var s :| s in systems && id in s.consumes && s.systemId == x; }
  }

  lemma EndpointsHaveNodes(registry: seq<System>, contracts: seq<string>, e: Edge)
    requires var g := GraphOf(registry, contracts); e in AllEdges(g.systems, g.contracts)
    ensures var g := GraphOf(registry, contracts);
            HasNode(g, e.fromKind, e.fromId) && (e.relation.DependsOn? || HasNode(g, e.toKind, e.toId))
  {
    var g := GraphOf(registry, contracts);
    EdgeOrigin(g.systems, g.contracts, e);
    TypesCover(g.systems, g.contracts, e.toId);
    TypesCover(g.systems, g.contracts, e.fromId);
    ArtifactHasNode(registry, contracts, e.toId);
    ArtifactHasNode(registry, contracts, e.fromId);
  }

  /** No edge is listed twice, and every endpoint is a node, except the target of a depends_on edge whose contract is
      not in the manifest. */
  lemma EdgesHaveNodes(registry: seq<System>, contracts: seq<string>)
    ensures Distinct(GraphOf(registry, contracts).edges)
    ensures forall e :: e in GraphOf(registry, contracts).edges ==>
              HasNode(GraphOf(registry, contracts), e.fromKind, e.fromId)
              && (e.relation.DependsOn? || HasNode(GraphOf(registry, contracts), e.toKind, e.toId))
  {
    var g := GraphOf(registry, contracts);
    EdgesListed(g.systems, g.contracts);
    forall e | e in g.edges
      ensures HasNode(g, e.fromKind, e.fromId) && (e.relation.DependsOn? || HasNode(g, e.toKind, e.toId)) {
      EndpointsHaveNodes(registry, contracts, e);
    }
  }

  /** The graph is closed exactly when every declared contract dependency is a contract of the manifest. */
  lemma GraphClosedIff(registry: seq<System>, contracts: seq<string>)
    ensures (forall e :: e in GraphOf(registry, contracts).edges ==>
        HasNode(GraphOf(registry, contracts), e.toKind, e.toId)) <==>
            forall s, c :: s in registry && c in s.contracts ==> c in contracts
  {
    var g := GraphOf(registry, contracts);
    EdgesListed(g.systems, g.contracts);
    StrOrder();
    SortSorts(contracts, StrLeq);
    assert forall c :: c in g.contracts <==> c in contracts;
    forall s, c | s in registry && c in s.contracts && c !in contracts
      ensures exists e :: e in g.edges && !HasNode(g, e.toKind, e.toId)
    {
      ExtractedIn(registry, s);
      SortedStringsLists(SetOf(s.contracts));
      EmitEdge(g.systems, g.contracts, Extracted(s), c);
      assert !HasNode(g, ContractNode, c);
      assert Edge(SystemNode, s.systemId, DependsOn, ContractNode, c) in g.edges;
    }
    forall e | e in g.edges && !HasNode(g, e.toKind, e.toId)
      ensures exists s, c :: s in registry && c in s.contracts && c !in contracts
    {
      EndpointsHaveNodes(registry, contracts, e);
      EdgeOrigin(g.systems, g.contracts, e);
      var s :| s in g.systems && e.toId in s.contracts;
      var k := ExtractedFrom(registry, s);
      SortedStringsLists(SetOf(registry[k].contracts));
    }
  }

  lemma ExtractedFrom(registry: seq<System>, s: System) returns (k: nat)
    requires s in Sort(ExtractedAll(registry), SystemLeq)
    ensures k < |registry| && s == Extracted(registry[k])
  {
    SystemOrder();
    SortSorts(ExtractedAll(registry), SystemLeq);
    assert s in ExtractedAll(registry);
    k :| 0 <= k < |registry| && s == Extracted(registry[k]);
  }

  lemma ExtractedIn(registry: seq<System>, s: System)
    requires s in registry
    ensures Extracted(s) in Sort(ExtractedAll(registry), SystemLeq)
  {
    SystemOrder();
    SortSorts(ExtractedAll(registry), SystemLeq);
    var k :| 0 <= k < |registry| && registry[k] == s;
    assert ExtractedAll(registry)[k] == Extracted(s);
  }

  lemma SameSystems(a: seq<System>, b: seq<System>, s: System)
    requires SameElements(a, b)
    requires s in Sort(ExtractedAll(a), SystemLeq)
    ensures s in Sort(ExtractedAll(b), SystemLeq)
  {
    SystemOrder();
    SortSorts(ExtractedAll(a), SystemLeq);
    assert s in ExtractedAll(a);
    var k :| 0 <= k < |a| && s == Extracted(a[k]);
    assert a[k] in b;
    ExtractedIn(b, a[k]);
  }

  /** Nodes and edges do not depend on the order, or on repetitions, of the registry or the manifest. */
  lemma GraphOrderIndependent(
      registry: seq<System>, registry': seq<System>, contracts: seq<string>, contracts': seq<string>)
    requires SameElements(registry, registry') && SameElements(contracts, contracts')
    ensures GraphOf(registry, contracts).edges == GraphOf(registry', contracts').edges
    ensures GraphOf(registry, contracts).nodes == GraphOf(registry', contracts').nodes
  {
    var g, h := GraphOf(registry, contracts), GraphOf(registry', contracts');
    StrOrder();
    SortSorts(contracts, StrLeq);
    SortSorts(contracts', StrLeq);
    forall s ensures s in g.systems <==> s in h.systems {
      if s in g.systems { SameSystems(registry, registry', s); }
      if s in h.systems { SameSystems(registry', registry, s); }
    }
    SetsDetermineViews(g.systems, h.systems, g.contracts, h.contracts);
  }

  lemma SetsDetermineViews(a: seq<System>, b: seq<System>, c: seq<string>, d: seq<string>)
    requires SameElements(a, b) && SameElements(c, d)
    ensures AllEdges(a, c) == AllEdges(b, d)
    ensures NodesOf(a, SortedStrings(ArtifactTypes(a, c))) == NodesOf(b, SortedStrings(ArtifactTypes(b, d)))
  {
    assert ArtifactTypes(a, c) == ArtifactTypes(b, d);
    forall t ensures NodeOf(a, t) == NodeOf(b, t) {
      assert Producers(a, t) == Producers(b, t) && Consumers(a, t) == Consumers(b, t);
    }
  }
}
