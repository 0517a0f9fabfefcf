/** internal/attractor/model/graph.go: the pipeline graph. `Graph` is the value;
    `MutableGraph` is the object the parser fills in. */
module Model {
  import opened Text

  datatype Node = Node(id: string, attrs: map<string, string>, order: int)

  datatype Edge = Edge(from: string, to: string, attrs: map<string, string>, order: int)

  datatype Graph = Graph(name: string, nodes: seq<Node>, edges: seq<Edge>, attrs: map<string, string>)

  // ---- attribute accessors ----

  /** Go's m[key] on a map[string]string: the empty string when absent. */
  function Attr(m: map<string, string>, key: string): string {
    if key in m then m[key] else ""
  }

  /** Go's m[key] with its second result. */
  function Find(m: map<string, string>, key: string): Option<string> {
    if key in m then Some(m[key]) else None
  }

  function IntAttr(m: map<string, string>, key: string, default: int): int {
    if key !in m then default
    else match Atoi(m[key])
         case Some(i) => i
         case None => default
  }

  function BoolAttr(m: map<string, string>, key: string, default: bool): bool {
    if key !in m then default
    else match ParseBool(m[key])
         case Some(b) => b
         case None => default
  }

  function StringAttr(m: map<string, string>, key: string, default: string): string {
    if key in m then m[key] else default
  }

  // ---- lookups ----

  predicate HasNode(g: Graph, id: string) {
    exists i :: 0 <= i < |g.nodes| && g.nodes[i].id == id
  }

  function FindNode(nodes: seq<Node>, id: string): (r: Option<Node>)
    ensures r.Some? ==> r.value in nodes && r.value.id == id
    ensures r.None? <==> forall i :: 0 <= i < |nodes| ==> nodes[i].id != id
  {
    if nodes == [] then None
    else if nodes[0].id == id then Some(nodes[0])
    else FindNode(nodes[1..], id)
  }

  function NodeByID(g: Graph, id: string): (r: Option<Node>)
    ensures r.Some? ==> r.value in g.nodes && r.value.id == id
    ensures r.Some? <==> HasNode(g, id)
  {
    FindNode(g.nodes, id)
  }

  function StartOf(nodes: seq<Node>): (r: Option<Node>)
    ensures r.Some? ==> r.value in nodes && Attr(r.value.attrs, "shape") == "Mdiamond"
  {
    if nodes == [] then None
    else if Attr(nodes[0].attrs, "shape") == "Mdiamond" then Some(nodes[0])
    else StartOf(nodes[1..])
  }

  function StartNode(g: Graph): Option<Node> {
    StartOf(g.nodes)
  }

  function FilterFrom(edges: seq<Edge>, id: string): (out: seq<Edge>)
    ensures forall e :: e in out <==> e in edges && e.from == id
  {
    if edges == [] then []
    else
      var front := FilterFrom(edges[..|edges| - 1], id);
      var last := edges[|edges| - 1];
      assert edges == edges[..|edges| - 1] + [last];
      if last.from == id then front + [last] else front
  }

  predicate SortedByOrder(s: seq<Edge>) {
    forall i, j :: 0 <= i < j < |s| ==> s[i].order <= s[j].order
  }

  function InsertByOrder(e: Edge, s: seq<Edge>): (out: seq<Edge>)
    requires SortedByOrder(s)
    ensures SortedByOrder(out) && |out| == |s| + 1
    ensures forall x :: x in out <==> x == e || x in s
    ensures s == [] || s[|s| - 1].order <= e.order ==> out == s + [e]
  {
    if s == [] then [e]
    else if s[|s| - 1].order <= e.order then s + [e]
    else
      var front := InsertByOrder(e, s[..|s| - 1]);
      assert s == s[..|s| - 1] + [s[|s| - 1]];
      assert forall x :: x in front ==> x.order <= s[|s| - 1].order;
      front + [s[|s| - 1]]
  }

  /** sort.Slice by Order; orders are distinct in every graph the parser builds. */
  function SortByOrder(s: seq<Edge>): (out: seq<Edge>)
    ensures SortedByOrder(out) && |out| == |s|
    ensures forall x :: x in out <==> x in s
    ensures SortedByOrder(s) ==> out == s
  {
    if s == [] then []
    else
      assert s == s[..|s| - 1] + [s[|s| - 1]];
      InsertByOrder(s[|s| - 1], SortByOrder(s[..|s| - 1]))
  }

  function OutEdges(g: Graph, id: string): (out: seq<Edge>)
    ensures forall e :: e in out <==> e in g.edges && e.from == id
    ensures SortedByOrder(out)
  {
    SortByOrder(FilterFrom(g.edges, id))
  }

  function Targets(edges: seq<Edge>): (ids: seq<string>)
    ensures |ids| == |edges| && forall i :: 0 <= i < |ids| ==> ids[i] == edges[i].to
  {
    seq(|edges|, i requires 0 <= i < |edges| => edges[i].to)
  }

  function Successors(g: Graph, id: string): (ids: seq<string>)
    ensures forall t :: t in ids <==> IsEdge(g, id, t)
    ensures |ids| == |OutEdges(g, id)|
  {
    var out := OutEdges(g, id);
    assert forall t :: t in Targets(out) <==> exists i :: 0 <= i < |out| && out[i].to == t;
    assert forall t | IsEdge(g, id, t) :: t in Targets(out) by {
      forall t | IsEdge(g, id, t) ensures t in Targets(out) {
        var e :| e in g.edges && e.from == id && e.to == t;
        assert e in out;
      }
    }
    Targets(out)
  }

  predicate IsEdge(g: Graph, a: string, b: string) {
    exists e :: e in g.edges && e.from == a && e.to == b
  }

  // ---- walks along edges ----

  predicate Hop(g: Graph, p: seq<string>, i: nat)
    requires i < |p| - 1
  {
    IsEdge(g, p[i], p[i + 1])
  }

  predicate IsWalk(g: Graph, p: seq<string>) {
    p != [] && forall i :: 0 <= i < |p| - 1 ==> Hop(g, p, i)
  }

  lemma WalkGrows(g: Graph, from: string, q: seq<string>)
    requires IsWalk(g, q) && IsEdge(g, from, q[0])
    ensures IsWalk(g, [from] + q)
  {
    hide IsEdge;
    var p := [from] + q;
    forall i | 0 <= i < |p| - 1 ensures Hop(g, p, i) {
      if i > 0 { assert Hop(g, q, i - 1); }
    }
  }

  lemma WalkWithin(g: Graph, p: seq<string>, lo: nat, hi: nat)
    requires IsWalk(g, p) && lo < hi <= |p|
    ensures IsWalk(g, p[lo..hi])
  {
    hide IsEdge;
    var q := p[lo..hi];
    forall i | 0 <= i < |q| - 1 ensures Hop(g, q, i) {
      assert Hop(g, p, lo + i);
    }
  }

  // ---- what every parsed graph satisfies ----

  predicate DistinctIDs(nodes: seq<Node>) {
    forall i, j :: 0 <= i < j < |nodes| ==> nodes[i].id != nodes[j].id
  }

  /** IDs distinct, node orders increasing, edge endpoints present, edge orders
      equal to positions. */
  predicate WellFormed(g: Graph) {
    && DistinctIDs(g.nodes)
    && (forall i, j :: 0 <= i < j < |g.nodes| ==> g.nodes[i].order < g.nodes[j].order)
    && (forall e :: e in g.edges ==> HasNode(g, e.from) && HasNode(g, e.to))
    && (forall i :: 0 <= i < |g.edges| ==> g.edges[i].order == i)
  }

  /** With distinct IDs the lookup returns the one node with that ID. */
  lemma {:induction false} FindNodeUnique(nodes: seq<Node>, n: Node)
    requires DistinctIDs(nodes) && n in nodes
    ensures FindNode(nodes, n.id) == Some(n)
  {
    if nodes[0] != n {
      var i :| 0 <= i < |nodes| && nodes[i] == n;
      assert nodes[0].id != nodes[i].id;
      FindNodeUnique(nodes[1..], n);
    }
  }

  /** In a well-formed graph sorting the out-edges changes nothing: they already
      stand in declaration order. */
  lemma {:induction false} OutEdgesInDeclarationOrder(g: Graph, id: string)
    requires WellFormed(g)
    ensures OutEdges(g, id) == FilterFrom(g.edges, id)
    ensures forall i, j :: 0 <= i < j < |OutEdges(g, id)| ==> OutEdges(g, id)[i].order < OutEdges(g, id)[j].order
  {
    FilterKeepsOrder(g.edges, id);
  }

  lemma {:induction false} FilterKeepsOrder(edges: seq<Edge>, id: string)
    requires forall i :: 0 <= i < |edges| ==> edges[i].order == i
    ensures forall i, j :: 0 <= i < j < |FilterFrom(edges, id)| ==>
              FilterFrom(edges, id)[i].order < FilterFrom(edges, id)[j].order
  {
    if edges != [] {
      FilterKeepsOrder(edges[..|edges| - 1], id);
      forall e | e in FilterFrom(edges[..|edges| - 1], id) ensures e.order < |edges| - 1 {
        assert e in edges[..|edges| - 1];
      }
    }
  }

  // ---- the object ----

  /** The graph under construction. Go's nodesByID maps an ID to the very node
      object that Nodes holds; here it maps the ID to that node's position. */
  class MutableGraph {
    var name: string
    var nodes: seq<Node>
    var edges: seq<Edge>
    var attrs: map<string, string>
    var nodesByID: map<string, nat>

    ghost predicate Valid()
      reads this
    {
      && (forall id :: id in nodesByID ==> nodesByID[id] < |nodes| && nodes[nodesByID[id]].id == id)
      && (forall i :: 0 <= i < |nodes| ==> nodes[i].id in nodesByID && nodesByID[nodes[i].id] == i)
    }

    ghost function Value(): Graph
      reads this
    {
      Graph(name, nodes, edges, attrs)
    }

    constructor (name: string)
      ensures Valid() && Value() == Graph(name, [], [], map[])
    {
      this.name, nodes, edges, attrs, nodesByID := name, [], [], map[], map[];
    }

    method AddNode(n: Node)
      requires Valid()
      modifies this
      ensures Valid() && Value() == WithNode(old(Value()), n)
    {
      ghost var before := nodes;
      if n.id in nodesByID {
        var i := nodesByID[n.id];
        IndexOfIs(nodes, n.id, i);
        nodes := nodes[i := nodes[i].(attrs := nodes[i].attrs + n.attrs)];
        return;
      }
      IndexOfNone(nodes, n.id);
      nodesByID := nodesByID[n.id := |nodes|];
      nodes := nodes + [n];
    }

    method AddEdge(e: Edge)
      requires Valid()
      modifies this`edges
      ensures Valid() && Value() == WithEdge(old(Value()), e)
    {
      edges := edges + [e];
    }

    method MergeAttrs(more: map<string, string>)
      requires Valid()
      modifies this`attrs
      ensures Valid() && Value() == old(Value()).(attrs := old(attrs) + more)
    {
      attrs := attrs + more;
    }

    predicate HasID(id: string)
      requires Valid()
      reads this
      ensures HasID(id) <==> HasNode(Value(), id)
    {
      id in nodesByID
    }
  }

  function IndexOf(nodes: seq<Node>, id: string): (i: nat)
    ensures i <= |nodes|
    ensures i < |nodes| ==> nodes[i].id == id
    ensures forall j :: 0 <= j < i ==> nodes[j].id != id
  {
    if nodes == [] then 0
    else if nodes[0].id == id then 0
    else 1 + IndexOf(nodes[1..], id)
  }

  lemma IndexOfIs(nodes: seq<Node>, id: string, i: nat)
    requires i < |nodes| && nodes[i].id == id && (forall j :: 0 <= j < |nodes| && nodes[j].id == id ==> j == i)
    ensures IndexOf(nodes, id) == i
  {
    assert IndexOf(nodes, id) <= i;
  }

  lemma IndexOfNone(nodes: seq<Node>, id: string)
    requires forall j :: 0 <= j < |nodes| ==> nodes[j].id != id
    ensures IndexOf(nodes, id) == |nodes|
  {
    assert IndexOf(nodes, id) <= |nodes|;
  }

  /** What AddNode does to the value: merge into the node with that ID, or append. */
  function WithNode(g: Graph, n: Node): (r: Graph)
    ensures DistinctIDs(g.nodes) ==> DistinctIDs(r.nodes)
    ensures forall id :: HasNode(r, id) <==> HasNode(g, id) || id == n.id
  {
    var i := IndexOf(g.nodes, n.id);
    if i < |g.nodes| then
      var r := g.(nodes := g.nodes[i := g.nodes[i].(attrs := g.nodes[i].attrs + n.attrs)]);
      assert forall j :: 0 <= j < |g.nodes| ==> r.nodes[j].id == g.nodes[j].id;
      assert forall id :: HasNode(g, id) ==> HasNode(r, id);
      r
    else
      var r := g.(nodes := g.nodes + [n]);
      assert r.nodes[|g.nodes|].id == n.id;
      assert forall j :: 0 <= j < |g.nodes| ==> r.nodes[j] == g.nodes[j];
      r
  }

  /** A node with that ID keeps its place and order; each of its attributes takes
      the new value, if there is one. Nothing else changes. */
  lemma MergedNode(g: Graph, n: Node, i: nat)
    requires i < |g.nodes| && g.nodes[i].id == n.id && DistinctIDs(g.nodes)
    ensures var r := WithNode(g, n);
            && |r.nodes| == |g.nodes| && r.edges == g.edges && r.attrs == g.attrs && r.name == g.name
            && (forall j :: 0 <= j < |g.nodes| && j != i ==> r.nodes[j] == g.nodes[j])
            && r.nodes[i].id == n.id && r.nodes[i].order == g.nodes[i].order
            && forall key :: Find(r.nodes[i].attrs, key) ==
                 if key in n.attrs then Some(n.attrs[key]) else Find(g.nodes[i].attrs, key)
  {
    IndexOfIs(g.nodes, n.id, i);
  }

  /** A node with a new ID comes last, as it is. */
  lemma AppendedNode(g: Graph, n: Node)
    requires !HasNode(g, n.id)
    ensures WithNode(g, n) == g.(nodes := g.nodes + [n])
  {
    IndexOfNone(g.nodes, n.id);
  }

  /** The start node is the first one with the shape. */
  lemma {:induction false} StartIsFirst(nodes: seq<Node>) returns (i: nat)
    ensures i <= |nodes| && forall j :: 0 <= j < i ==> Attr(nodes[j].attrs, "shape") != "Mdiamond"
    ensures if i < |nodes| then Attr(nodes[i].attrs, "shape") == "Mdiamond" && StartOf(nodes) == Some(nodes[i])
            else StartOf(nodes) == None
  {
    if nodes == [] || Attr(nodes[0].attrs, "shape") == "Mdiamond" {
      i := 0;
    } else {
      i := StartIsFirst(nodes[1..]);
      i := i + 1;
    }
  }

  function WithEdge(g: Graph, e: Edge): Graph {
    g.(edges := g.edges + [e])
  }
}
