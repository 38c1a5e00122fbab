/**
 * The ER diagram component: the map from trimmed entity names to node ids, one node per
 * entity on a three-column grid, and one edge per relationship whose trimmed endpoints both
 * resolve to a node. The React Flow rendering and the PNG export are not modelled.
 */
module ErDiagram {
  import opened Wrappers
  import opened Text
  import opened Json

  const EntitiesKey := "entities"
  const RelationshipsKey := "relationships"
  const NameKey := "name"
  const FromKey := "from"
  const ToKey := "to"
  const TypeKey := "type"
  const AttributesKey := "attributes"

  datatype Position = Position(x: int, y: int)

  /** A node: its id, the entity it draws, and where it is placed. */
  datatype Node = Node(id: string, entity: Value, position: Position)

  datatype Edge = Edge(id: string, source: string, target: string, edgeLabel: Value)

  datatype Graph = Graph(nodes: seq<Node>, edges: seq<Edge>)

  function EntityId(i: nat): string {
    "entity-" + NatToString(i)
  }

  function EdgeId(i: nat): string {
    "edge-" + NatToString(i)
  }

  // ---------------------------------------------------------------------------
  // Reading the schema

  /** A destructuring default: it replaces `undefined` only, not `null`. */
  function DefaultIfUndefined(v: Value): (r: Value)
    ensures v.Undefined? ==> r == Arr([])
    ensures !v.Undefined? ==> r == v
  {
    if v.Undefined? then Arr([]) else v
  }

  /** `const { entities = [], relationships = [] } = schema || {}`. */
  function Collections(schema: Value): (r: (Value, Value))
    ensures !Truthy(schema) ==> r == (Arr([]), Arr([]))
    ensures r.0 == (if Get(schema, EntitiesKey).Undefined? then Arr([]) else Get(schema, EntitiesKey))
    ensures r.1 == (if Get(schema, RelationshipsKey).Undefined? then Arr([]) else Get(schema, RelationshipsKey))
  {
    var source := Or(schema, Obj([]));
    (DefaultIfUndefined(Get(source, EntitiesKey)), DefaultIfUndefined(Get(source, RelationshipsKey)))
  }

  /** `entity.name.trim()` runs: the entity's name is a string. */
  predicate HasStringName(entity: Value) {
    Get(entity, NameKey).Str?
  }

  function TrimmedName(entity: Value): string
    requires HasStringName(entity)
  {
    JsTrim(Get(entity, NameKey).s)
  }

  /** `entity.name.trim()` runs for every entity. */
  predicate AllNamed(ents: seq<Value>) {
    forall i :: 0 <= i < |ents| ==> HasStringName(ents[i])
  }

  /** Every entity's trimmed name is a key of `ids`. */
  predicate NamesIn(ents: seq<Value>, ids: map<string, string>)
    requires AllNamed(ents)
  {
    forall i :: 0 <= i < |ents| ==> TrimmedName(ents[i]) in ids
  }

  function TrimmedNames(ents: seq<Value>): (names: seq<string>)
    requires AllNamed(ents)
    ensures |names| == |ents| && forall i :: 0 <= i < |ents| ==> names[i] == TrimmedName(ents[i])
  {
    seq(|ents|, i requires 0 <= i < |ents| => TrimmedName(ents[i]))
  }

  // ---------------------------------------------------------------------------
  // The node id map

  /** The map after the forEach over the entities has visited the given names, in order. */
  function NodeIds(names: seq<string>): (m: map<string, string>)
    decreases |names|
  {
    if names == [] then map[]
    else NodeIds(names[..|names| - 1])[names[|names| - 1] := EntityId(|names| - 1)]
  }

  /** The keys of the map are exactly the names. */
  lemma {:induction false} NodeIdsKeys(names: seq<string>, k: string)
    ensures k in NodeIds(names) <==> k in names
    decreases |names|
  {
    if names != [] {
      var init := names[..|names| - 1];
      NodeIdsKeys(init, k);
      assert names == init + [names[|names| - 1]];
    }
  }

  /** The largest index holding `k`. */
  function LastIndex(names: seq<string>, k: string): (i: nat)
    requires k in names
    ensures i < |names| && names[i] == k
    ensures forall j :: i < j < |names| ==> names[j] != k
    decreases |names|
  {
    if names[|names| - 1] == k then |names| - 1
    else
      assert k in names[..|names| - 1] by {
        var j :| 0 <= j < |names| && names[j] == k;
        assert names[..|names| - 1][j] == k;
      }
      LastIndex(names[..|names| - 1], k)
  }

  /** The later duplicate wins: each name maps to the id of its last occurrence. */
  lemma {:induction false} NodeIdsLastWins(names: seq<string>, k: string)
    requires k in names
    ensures k in NodeIds(names) && NodeIds(names)[k] == EntityId(LastIndex(names, k))
    decreases |names|
  {
    var n := |names| - 1;
    if names[n] != k {
      assert k in names[..n] by {
        var j :| 0 <= j < |names| && names[j] == k;
        assert names[..n][j] == k;
      }
      NodeIdsLastWins(names[..n], k);
    }
  }

  /** One more step of the loop adds the next name with its index. */
  lemma NodeIdsStep(names: seq<string>, i: nat)
    requires i < |names|
    ensures NodeIds(names[..i + 1]) == NodeIds(names[..i])[names[i] := EntityId(i)]
  {
    assert names[..i + 1][..i] == names[..i];
  }

  /** `nodeIdMap`: the dictionary filled by the forEach loop. */
  method BuildNodeIdMap(ents: seq<Value>) returns (m: map<string, string>)
    requires AllNamed(ents)
    ensures m == NodeIds(TrimmedNames(ents))
  {
    ghost var names := TrimmedNames(ents);
    m := map[];
    for idx := 0 to |ents|
      invariant m == NodeIds(names[..idx])
    {
      NodeIdsStep(names, idx);
      m := m[JsTrim(Get(ents[idx], NameKey).s) := EntityId(idx)];
    }
    assert names[..|ents|] == names;
  }

  // ---------------------------------------------------------------------------
  // Nodes

  /** Three columns 300 apart, rows 600 apart. */
  function GridPosition(i: nat): (p: Position)
    ensures p.x in {0, 300, 600} && p.y >= 0 && p.y % 600 == 0
    ensures p.x == 300 * (i % 3) && p.y == 600 * (i / 3)
  {
    Position((i % 3) * 300, (i / 3) * 600)
  }

  /** No two nodes share a grid cell. */
  lemma GridPositionsDistinct(i: nat, j: nat)
    requires i != j
    ensures GridPosition(i) != GridPosition(j)
  {
    assert i == 3 * (i / 3) + i % 3 && j == 3 * (j / 3) + j % 3;
  }

  /** `(entity.attributes || []).map(attr => ... attr.name ...)` in renderNodeLabel
      runs: the list is an array and none of its elements is null or undefined. */
  predicate LabelRenders(entity: Value) {
    var attrs := Or(Get(entity, AttributesKey), Arr([]));
    attrs.Arr? && forall a :: a in attrs.items ==> !IsNullish(a)
  }

  /** renderNodeLabel runs for every entity. */
  predicate AllLabelled(ents: seq<Value>) {
    forall i :: 0 <= i < |ents| ==> LabelRenders(ents[i])
  }

  /** `nodes`: one node per entity, in entity order. */
  function Nodes(ents: seq<Value>, ids: map<string, string>): (nodes: seq<Node>)
    requires AllNamed(ents) && NamesIn(ents, ids)
    ensures |nodes| == |ents|
    ensures forall i :: 0 <= i < |ents| ==> nodes[i].entity == ents[i] && nodes[i].position == GridPosition(i)
  {
    seq(|ents|, i requires 0 <= i < |ents| => Node(ids[TrimmedName(ents[i])], ents[i], GridPosition(i)))
  }

  /** A node's id is the id of the last entity with the same trimmed name. */
  lemma NodeIdIsLastDuplicate(ents: seq<Value>, i: nat)
    requires AllNamed(ents)
    requires i < |ents|
    ensures var names := TrimmedNames(ents);
      var ids := NodeIds(names);
      NamesIn(ents, ids)
      && Nodes(ents, ids)[i].id == EntityId(LastIndex(names, names[i]))
  {
    var names := TrimmedNames(ents);
    forall j | 0 <= j < |ents| ensures TrimmedName(ents[j]) in NodeIds(names) {
      NodeIdsKeys(names, names[j]);
    }
    NodeIdsLastWins(names, names[i]);
  }

  /** Entities with equal trimmed names share one id; with distinct names node i has id "entity-i". */
  lemma NodeIdsShared(ents: seq<Value>, i: nat, j: nat)
    requires AllNamed(ents)
    requires i < |ents| && j < |ents|
    ensures var names := TrimmedNames(ents);
      var ids := NodeIds(names);
      NamesIn(ents, ids)
      && (names[i] == names[j] ==> Nodes(ents, ids)[i].id == Nodes(ents, ids)[j].id)
      && ((forall k :: 0 <= k < |ents| && k != i ==> names[k] != names[i]) ==> Nodes(ents, ids)[i].id == EntityId(i))
  {
    NodeIdIsLastDuplicate(ents, i);
    NodeIdIsLastDuplicate(ents, j);
  }

  // ---------------------------------------------------------------------------
  // Edges

  /** `(v || "").trim()` runs: `v || ""` is a string. */
  predicate TrimmableEndpoint(v: Value) {
    Or(v, Str("")).Str?
  }

  function Endpoint(v: Value): string
    requires TrimmableEndpoint(v)
  {
    JsTrim(Or(v, Str("")).s)
  }

  /** The endpoint trims of the edge callback run for this relationship without throwing. */
  predicate EdgeMappable(rel: Value) {
    !IsNullish(rel) && TrimmableEndpoint(Get(rel, FromKey)) && TrimmableEndpoint(Get(rel, ToKey))
  }

  /** The endpoint trims run for every relationship. */
  predicate AllMappable(rels: seq<Value>) {
    forall i :: 0 <= i < |rels| ==> EdgeMappable(rels[i])
  }

  /** What the edge callback reads from one relationship: the trimmed endpoint names and the label. */
  datatype Link = Link(from: string, to: string, caption: Value)

  function LinkOf(rel: Value): (l: Link)
    requires EdgeMappable(rel)
    ensures Truthy(Get(rel, TypeKey)) ==> l.caption == Get(rel, TypeKey)
    ensures !Truthy(Get(rel, TypeKey)) ==> l.caption == Str("")
  {
    Link(Endpoint(Get(rel, FromKey)), Endpoint(Get(rel, ToKey)), Or(Get(rel, TypeKey), Str("")))
  }

  function Links(rels: seq<Value>): (links: seq<Link>)
    requires AllMappable(rels)
    ensures |links| == |rels| && forall i :: 0 <= i < |rels| ==> links[i] == LinkOf(rels[i])
  {
    seq(|rels|, i requires 0 <= i < |rels| => LinkOf(rels[i]))
  }

  /** Both endpoint names are keys of the map. */
  predicate Resolves(l: Link, ids: map<string, string>) {
    l.from in ids && l.to in ids
  }

  /** The edge callback: the edge for relationship idx, or null when an endpoint does not resolve.
      Every id in the map is non-empty, so `!source` holds exactly when the lookup misses. */
  function EdgeAt(l: Link, idx: nat, ids: map<string, string>): (r: Option<Edge>)
    ensures r.Some? <==> Resolves(l, ids)
    ensures r.Some? ==> r.value == Edge(EdgeId(idx), ids[l.from], ids[l.to], l.caption)
  {
    if l.from in ids && l.to in ids then Some(Edge(EdgeId(idx), ids[l.from], ids[l.to], l.caption))
    else None
  }

  /** `relationships.map(...).filter(Boolean)`. */
  function Edges(links: seq<Link>, ids: map<string, string>): (edges: seq<Edge>)
    ensures |edges| <= |links|
    decreases |links|
  {
    if links == [] then []
    else
      var n := |links| - 1;
      var init := Edges(links[..n], ids);
      match EdgeAt(links[n], n, ids)
      case Some(e) => init + [e]
      case None => init
  }

  /** The indices of the relationships that yield an edge, in increasing order. */
  function KeptIndices(links: seq<Link>, ids: map<string, string>): (ks: seq<nat>)
    ensures forall a :: 0 <= a < |ks| ==> ks[a] < |links|
    ensures forall a, b :: 0 <= a < b < |ks| ==> ks[a] < ks[b]
    ensures forall i :: 0 <= i < |links| ==> (i in ks <==> Resolves(links[i], ids))
    decreases |links|
  {
    if links == [] then []
    else
      var n := |links| - 1;
      var init := KeptIndices(links[..n], ids);
      assert forall i :: 0 <= i < n ==> links[..n][i] == links[i];
      if Resolves(links[n], ids) then init + [n] else init
  }

  /** Edge a comes from relationship KeptIndices[a]: the edges are exactly the resolving relationships' edges, in order. */
  lemma {:induction false} EdgesAreKept(links: seq<Link>, ids: map<string, string>)
    ensures var edges, ks := Edges(links, ids), KeptIndices(links, ids);
      |edges| == |ks| && forall a :: 0 <= a < |ks| ==> Some(edges[a]) == EdgeAt(links[ks[a]], ks[a], ids)
    decreases |links|
  {
    if links != [] {
      var n := |links| - 1;
      EdgesAreKept(links[..n], ids);
      assert forall i :: 0 <= i < n ==> links[..n][i] == links[i];
    }
  }

  /** Edge ids are "edge-<original index>", strictly increasing in that index, so pairwise distinct. */
  lemma EdgeIdsIncrease(links: seq<Link>, ids: map<string, string>)
    ensures var edges, ks := Edges(links, ids), KeptIndices(links, ids);
      |edges| == |ks| && forall a :: 0 <= a < |edges| ==> edges[a].id == EdgeId(ks[a])
    ensures var edges := Edges(links, ids);
      forall a, b :: 0 <= a < b < |edges| ==> edges[a].id != edges[b].id
  {
    EdgesAreKept(links, ids);
    var edges, ks := Edges(links, ids), KeptIndices(links, ids);
    forall a, b | 0 <= a < b < |edges| ensures edges[a].id != edges[b].id {
      if edges[a].id == edges[b].id {
        PrefixedIdInjective("edge-", ks[a], ks[b]);
      }
    }
  }

  /** Relationship i yields an edge iff both its endpoint names are keys of the map. */
  lemma EdgeIffResolves(links: seq<Link>, ids: map<string, string>, i: nat)
    requires i < |links|
    ensures (exists a :: 0 <= a < |Edges(links, ids)| && Edges(links, ids)[a].id == EdgeId(i)) <==> Resolves(links[i], ids)
  {
    EdgeIdsIncrease(links, ids);
    var edges, ks := Edges(links, ids), KeptIndices(links, ids);
    if Resolves(links[i], ids) {
      var a :| 0 <= a < |ks| && ks[a] == i;
      assert edges[a].id == EdgeId(i);
    }
    if exists a :: 0 <= a < |edges| && edges[a].id == EdgeId(i) {
      var a :| 0 <= a < |edges| && edges[a].id == EdgeId(i);
      PrefixedIdInjective("edge-", ks[a], i);
    }
  }

  /** Every edge's source and target are ids held in the map. */
  lemma EdgeEndpointsAreNodeIds(links: seq<Link>, ids: map<string, string>)
    ensures forall e :: e in Edges(links, ids) ==> e.source in ids.Values && e.target in ids.Values
  {
    EdgesAreKept(links, ids);
    var edges, ks := Edges(links, ids), KeptIndices(links, ids);
    forall e | e in edges ensures e.source in ids.Values && e.target in ids.Values {
      var a :| 0 <= a < |edges| && edges[a] == e;
      var l := links[ks[a]];
      assert ids[l.from] in ids.Values && ids[l.to] in ids.Values;
    }
  }

  // ---------------------------------------------------------------------------
  // The whole diagram

  /** The graph of the component with the own-key lookup of EdgeAt, or None when one of the
      expressions above throws. The component itself keeps also the edges EdgeAtAsWritten keeps
      (see EdgesAsWritten below); the two agree unless an endpoint names an Object.prototype member. */
  function Diagram(schema: Value): (g: Option<Graph>)
    ensures var (ents, rels) := Collections(schema);
      g.Some? <==> (ents.Arr? && AllNamed(ents.items) && AllLabelled(ents.items)
                    && rels.Arr? && AllMappable(rels.items))
    ensures g.Some? ==> var (ents, rels) := Collections(schema);
      |g.value.nodes| == |ents.items| && |g.value.edges| <= |rels.items|
  {
    var (ents, rels) := Collections(schema);
    if !ents.Arr? || !AllNamed(ents.items) then None
    else
      var ids := NodeIds(TrimmedNames(ents.items));
      assert NamesIn(ents.items, ids) by {
        forall j | 0 <= j < |ents.items| ensures TrimmedName(ents.items[j]) in ids {
          NodeIdsKeys(TrimmedNames(ents.items), TrimmedName(ents.items[j]));
        }
      }
      if !AllLabelled(ents.items) then None
      else if !rels.Arr? || !AllMappable(rels.items) then None
      else Some(Graph(Nodes(ents.items, ids), Edges(Links(rels.items), ids)))
  }

  /** Every id in the map is the id of some drawn node. */
  lemma MapIdsAreNodeIds(ents: seq<Value>, v: string)
    requires AllNamed(ents)
    requires v in NodeIds(TrimmedNames(ents)).Values
    ensures var ids := NodeIds(TrimmedNames(ents));
      NamesIn(ents, ids) && exists i :: 0 <= i < |ents| && Nodes(ents, ids)[i].id == v
  {
    var names := TrimmedNames(ents);
    var ids := NodeIds(names);
    var k :| k in ids && ids[k] == v;
    NodeIdsKeys(names, k);
    var j := LastIndex(names, k);
    NodeIdsLastWins(names, k);
    NodeIdIsLastDuplicate(ents, j);
  }

  /** Some node carries the id. */
  predicate HasNode(nodes: seq<Node>, id: string) {
    exists i :: 0 <= i < |nodes| && nodes[i].id == id
  }

  /** The nodes and edges built over one id map: every edge joins two of the nodes. */
  lemma EdgesJoinMappedNodes(ents: seq<Value>, links: seq<Link>)
    requires AllNamed(ents)
    ensures var ids := NodeIds(TrimmedNames(ents));
      NamesIn(ents, ids)
      && forall e :: e in Edges(links, ids) ==> HasNode(Nodes(ents, ids), e.source) && HasNode(Nodes(ents, ids), e.target)
  {
    var ids := NodeIds(TrimmedNames(ents));
    if ents != [] {
      NodeIdIsLastDuplicate(ents, 0);
    }
    EdgeEndpointsAreNodeIds(links, ids);
    forall e | e in Edges(links, ids)
      ensures HasNode(Nodes(ents, ids), e.source) && HasNode(Nodes(ents, ids), e.target)
    {
      MapIdsAreNodeIds(ents, e.source);
      MapIdsAreNodeIds(ents, e.target);
    }
  }

  /** In a drawn diagram every edge joins two of its nodes. */
  lemma EdgesJoinNodes(schema: Value)
    requires Diagram(schema).Some?
    ensures var g := Diagram(schema).value;
      forall e :: e in g.edges ==> HasNode(g.nodes, e.source) && HasNode(g.nodes, e.target)
  {
    var (ents, rels) := Collections(schema);
    EdgesJoinMappedNodes(ents.items, Links(rels.items));
  }

  /** A missing schema, or one without entities and relationships, draws an empty graph. */
  lemma MissingSchemaIsEmpty(schema: Value)
    requires !Truthy(schema) || (Get(schema, EntitiesKey).Undefined? && Get(schema, RelationshipsKey).Undefined?)
    ensures Diagram(schema) == Some(Graph([], []))
  {
  }

  /** The destructuring default does not cover `null`: `entities: null` makes the component throw. */
  lemma NullEntitiesThrow()
    ensures Diagram(Obj([(EntitiesKey, Null)])) == None
  {
    FieldOfSnoc([], EntitiesKey, Null);
    assert [(EntitiesKey, Null)] == [] + [(EntitiesKey, Null)];
  }

  // ---------------------------------------------------------------------------
  // The lookup as written

  /** The names every plain JavaScript object inherits from Object.prototype as functions. */
  const InheritedNames: set<string> := {
    "constructor", "hasOwnProperty", "isPrototypeOf", "propertyIsEnumerable", "toString",
    "valueOf", "toLocaleString", "__defineGetter__", "__defineSetter__", "__lookupGetter__",
    "__lookupSetter__"
  }

  /** What `nodeIdMap[name]` yields on the plain object `{}` the code uses. */
  datatype Lookup = Own(id: string) | InheritedFunction(name: string) | Missing

  function LookupAsWritten(ids: map<string, string>, name: string): (l: Lookup)
    ensures name in ids ==> l == Own(ids[name])
    ensures name !in ids && name in InheritedNames ==> l == InheritedFunction(name)
    ensures l.Missing? <==> name !in ids && name !in InheritedNames
  {
    if name in ids then Own(ids[name])
    else if name in InheritedNames then InheritedFunction(name)
    else Missing
  }

  /** The edge as the code builds it, with source and target as looked up. */
  datatype EdgeAsWritten = EdgeAsWritten(id: string, source: Lookup, target: Lookup, caption: Value)

  /** The code keeps the edge when both lookups are truthy; ids and inherited functions both are. */
  function EdgeAtAsWritten(l: Link, idx: nat, ids: map<string, string>): (r: Option<EdgeAsWritten>)
    ensures r.Some? <==> (l.from in ids || l.from in InheritedNames) && (l.to in ids || l.to in InheritedNames)
    ensures Resolves(l, ids) ==> r.Some? && r.value.source == Own(ids[l.from]) && r.value.target == Own(ids[l.to])
  {
    var source := LookupAsWritten(ids, l.from);
    var target := LookupAsWritten(ids, l.to);
    if !source.Missing? && !target.Missing? then Some(EdgeAsWritten(EdgeId(idx), source, target, l.caption))
    else None
  }

  /** A relationship from "Customer" to "toString" when only "Customer" is an entity: the code
      keeps an edge whose target is Object.prototype.toString, not a node id; the own-key lookup
      drops it. */
  lemma InheritedNameKeepsDanglingEdge()
    ensures var ids := map["Customer" := EntityId(0)];
      var l := Link("Customer", "toString", Str(""));
      EdgeAtAsWritten(l, 0, ids) == Some(EdgeAsWritten(EdgeId(0), Own(EntityId(0)), InheritedFunction("toString"), Str("")))
      && EdgeAt(l, 0, ids) == None
  {
    var ids := map["Customer" := EntityId(0)];
    assert "toString" !in ids;
    assert "toString" in InheritedNames;
  }

  /** `relationships.map(...).filter(Boolean)` with the lookup as written. */
  function EdgesAsWritten(links: seq<Link>, ids: map<string, string>): (edges: seq<EdgeAsWritten>)
    ensures |edges| <= |links|
    decreases |links|
  {
    if links == [] then []
    else
      var n := |links| - 1;
      var init := EdgesAsWritten(links[..n], ids);
      match EdgeAtAsWritten(links[n], n, ids)
      case Some(e) => init + [e]
      case None => init
  }

  /** An edge of the own-key lookup as the code holds it: both ends found as own ids. */
  function AsWritten(e: Edge): EdgeAsWritten {
    EdgeAsWritten(e.id, Own(e.source), Own(e.target), e.edgeLabel)
  }

  /** No endpoint name is inherited from Object.prototype. */
  predicate NoInheritedEndpoints(links: seq<Link>) {
    forall i :: 0 <= i < |links| ==> links[i].from !in InheritedNames && links[i].to !in InheritedNames
  }

  /** When no endpoint names an Object.prototype member, the edges as written are exactly the
      edges of the own-key lookup. */
  lemma {:induction false} EdgesAsWrittenAgree(links: seq<Link>, ids: map<string, string>)
    requires NoInheritedEndpoints(links)
    ensures var w, e := EdgesAsWritten(links, ids), Edges(links, ids);
      |w| == |e| && forall a :: 0 <= a < |w| ==> w[a] == AsWritten(e[a])
    decreases |links|
  {
    if links != [] {
      var n := |links| - 1;
      assert NoInheritedEndpoints(links[..n]) by {
        forall i | 0 <= i < n ensures links[..n][i] == links[i] { }
      }
      EdgesAsWrittenAgree(links[..n], ids);
      var l := links[n];
      assert l.from !in InheritedNames && l.to !in InheritedNames;
      match EdgeAt(l, n, ids)
      case Some(e) =>
        assert EdgeAtAsWritten(l, n, ids) == Some(AsWritten(e));
      case None =>
        assert EdgeAtAsWritten(l, n, ids) == None;
    }
  }
}
