/** Round trip of graphs through their text, and what the shorthands mean. */
module DotTheorems {
  import opened Text
  import opened Model
  import opened DotPrinter
  import opened DotProgram
  import G = DotGrammar

  // ---- printing a graph ----

  /** The entries of a map in some order. */
  ghost function ItemsOf(m: G.Attrs): Items {
    if m == map[] then []
    else
      var k := AnyKey(m);
      [(k, m[k])] + ItemsOf(m - {k})
  }

  ghost function AnyKey(m: G.Attrs): (k: string)
    requires m != map[]
    ensures k in m
  {
    assert m.Keys != {};
    var k :| k in m;
    k
  }

  lemma MoveEntry(m: G.Attrs, acc: G.Attrs, k: string)
    requires k in m
    ensures acc[k := m[k]] + (m - {k}) == acc + m
    ensures |m - {k}| < |m|
  {
    assert (m - {k}).Keys == m.Keys - {k};
  }

  lemma {:induction false} ItemsOfFold(m: G.Attrs, acc: G.Attrs)
    ensures Fold(ItemsOf(m), acc) == acc + m
    decreases |m|
  {
    if m == map[] {
      assert acc + m == acc;
    } else {
      var k := AnyKey(m);
      MoveEntry(m, acc, k);
      ItemsOfFold(m - {k}, acc[k := m[k]]);
      FoldFirst(k, m[k], ItemsOf(m - {k}), acc);
    }
  }

  lemma FoldFirst(k: string, v: string, items: Items, acc: G.Attrs)
    ensures Fold([(k, v)] + items, acc) == Fold(items, acc[k := v])
  {
    assert ([(k, v)] + items)[1..] == items;
  }

  lemma ItemsOfAttrs(m: G.Attrs)
    ensures AttrsOf(ItemsOf(m)) == m
  {
    ItemsOfFold(m, map[]);
    assert map[] + m == m;
  }

  ghost function NodeStmts(nodes: seq<Node>): seq<Stmt> {
    seq(|nodes|, i requires 0 <= i < |nodes| => NodeStmt(nodes[i].id, ItemsOf(nodes[i].attrs)))
  }

  ghost function EdgeStmts(edges: seq<Edge>): seq<Stmt> {
    seq(|edges|, i requires 0 <= i < |edges| => ChainStmt(edges[i].from, edges[i].to, [], ItemsOf(edges[i].attrs)))
  }

  /** The graph's attributes, its nodes, its edges: everything quoted. */
  ghost function ProgramOf(g: Graph): seq<Stmt> {
    [GraphAttrs(ItemsOf(g.attrs))] + NodeStmts(g.nodes) + EdgeStmts(g.edges)
  }

  ghost function PrintGraph(g: Graph): string {
    Source(g.name, ProgramOf(g))
  }

  /** A graph whose node orders, too, are the positions. */
  predicate Canonical(g: Graph) {
    WellFormed(g) && forall i :: 0 <= i < |g.nodes| ==> g.nodes[i].order == i
  }

  lemma {:induction false} ExecInTwo(a: seq<Stmt>, b: seq<Stmt>, c: Scope)
    ensures ExecAll(a + b, c) == ExecAll(b, ExecAll(a, c))
    decreases |a|
  {
    hide Exec;
    if a == [] {
      assert a + b == b;
    } else {
      assert (a + b)[1..] == a[1..] + b;
      ExecInTwo(a[1..], b, Exec(a[0], c));
    }
  }

  /** The scope after the attributes, the first i nodes and the first j edges. */
  function Built(g: Graph, i: nat, j: nat): Scope
    requires i <= |g.nodes| && j <= |g.edges|
  {
    Scope(G.Env(Graph(g.name, g.nodes[..i], g.edges[..j], g.attrs), i, j), G.NO_DEFAULTS)
  }

  lemma NodeBuilt(g: Graph, i: nat)
    requires Canonical(g) && i < |g.nodes|
    ensures Exec(NodeStmt(g.nodes[i].id, ItemsOf(g.nodes[i].attrs)), Built(g, i, 0)) == Built(g, i + 1, 0)
  {
    var n := g.nodes[i];
    ItemsOfAttrs(n.attrs);
    assert map[] + n.attrs == n.attrs;
    IndexOfNone(g.nodes[..i], n.id);
    assert g.nodes[..i] + [n] == g.nodes[..i + 1];
  }

  lemma {:induction false} NodesBuilt(g: Graph, i: nat)
    requires Canonical(g) && i <= |g.nodes|
    ensures ExecAll(NodeStmts(g.nodes[..i]), Built(g, 0, 0)) == Built(g, i, 0)
  {
    hide Exec, Canonical;
    if i > 0 {
      NodesBuilt(g, i - 1);
      var last := NodeStmt(g.nodes[i - 1].id, ItemsOf(g.nodes[i - 1].attrs));
      assert NodeStmts(g.nodes[..i]) == NodeStmts(g.nodes[..i - 1]) + [last];
      ExecInTwo(NodeStmts(g.nodes[..i - 1]), [last], Built(g, 0, 0));
      NodeBuilt(g, i - 1);
      ExecOne(last, Built(g, i - 1, 0));
    }
  }

  lemma ExecOne(s: Stmt, c: Scope)
    ensures ExecAll([s], c) == Exec(s, c)
  {
    assert [s][1..] == [];
  }

  lemma PresentChain(env: G.Env, d: G.Defaults, from: string, to: string, attrs: G.Attrs)
    requires HasNode(env.graph, from) && HasNode(env.graph, to)
    ensures G.PutChain(env, d, [from, to], attrs) == G.PutEdge(env, from, to, d.edge + attrs)
  {
    var ids := [from, to];
    assert ids[..1] == [from] && [from][..0] == [];
    assert G.EnsureNodes(env, [], d.node) == env;
    assert G.EnsureNodes(env, [from], d.node) == env;
    assert G.EnsureNodes(env, ids, d.node) == env;
    assert G.PutEdges(env, [from], d.edge + attrs) == env;
  }

  lemma EdgeBuilt(g: Graph, j: nat)
    requires Canonical(g) && j < |g.edges|
    ensures Exec(ChainStmt(g.edges[j].from, g.edges[j].to, [], ItemsOf(g.edges[j].attrs)), Built(g, |g.nodes|, j))
         == Built(g, |g.nodes|, j + 1)
  {
    hide AttrsOf;
    var e, c := g.edges[j], Built(g, |g.nodes|, j);
    assert g.nodes[..|g.nodes|] == g.nodes;
    assert HasNode(g, e.from) && HasNode(g, e.to);
    ItemsOfAttrs(e.attrs);
    assert map[] + e.attrs == e.attrs;
    assert [e.from, e.to] + [] == [e.from, e.to];
    PresentChain(c.env, c.defaults, e.from, e.to, e.attrs);
    assert g.edges[..j] + [e] == g.edges[..j + 1];
  }

  lemma {:induction false} EdgesBuilt(g: Graph, j: nat)
    requires Canonical(g) && j <= |g.edges|
    ensures ExecAll(EdgeStmts(g.edges[..j]), Built(g, |g.nodes|, 0)) == Built(g, |g.nodes|, j)
  {
    hide Exec, Canonical;
    if j > 0 {
      EdgesBuilt(g, j - 1);
      var e := g.edges[j - 1];
      var last := ChainStmt(e.from, e.to, [], ItemsOf(e.attrs));
      assert EdgeStmts(g.edges[..j]) == EdgeStmts(g.edges[..j - 1]) + [last];
      ExecInTwo(EdgeStmts(g.edges[..j - 1]), [last], Built(g, |g.nodes|, 0));
      EdgeBuilt(g, j - 1);
      ExecOne(last, Built(g, |g.nodes|, j - 1));
    }
  }

  lemma AttrsBuilt(g: Graph)
    ensures ExecAll([GraphAttrs(ItemsOf(g.attrs))], Scope(G.EmptyEnv(g.name), G.NO_DEFAULTS)) == Built(g, 0, 0)
  {
    ItemsOfAttrs(g.attrs);
    assert map[] + g.attrs == g.attrs;
    ExecOne(GraphAttrs(ItemsOf(g.attrs)), Scope(G.EmptyEnv(g.name), G.NO_DEFAULTS));
  }

  lemma ProgramOfMeans(g: Graph)
    requires Canonical(g)
    ensures Meaning(g.name, ProgramOf(g)) == g
  {
    hide Canonical, ExecAll;
    var c := Scope(G.EmptyEnv(g.name), G.NO_DEFAULTS);
    var attrs, nodes, edges := [GraphAttrs(ItemsOf(g.attrs))], NodeStmts(g.nodes), EdgeStmts(g.edges);
    ExecInTwo(attrs + nodes, edges, c);
    ExecInTwo(attrs, nodes, c);
    AttrsBuilt(g);
    NodesBuilt(g, |g.nodes|);
    EdgesBuilt(g, |g.edges|);
    assert g.nodes[..|g.nodes|] == g.nodes && g.edges[..|g.edges|] == g.edges;
  }

  /** Round trip: every graph, with any strings for its name, IDs, keys and values,
      is what its printed text parses to. */
  lemma GraphRoundTrip(cs: Charset, g: Graph)
    requires Sane(cs) && Canonical(g)
    ensures G.Parse(cs, PrintGraph(g)) == Some(g)
  {
    hide Sane, Canonical, Meaning;
    ProgramParses(cs, g.name, ProgramOf(g));
    ProgramOfMeans(g);
  }

  /** The same graph with its nodes numbered by position. */
  function Renumbered(g: Graph): (r: Graph)
    ensures |r.nodes| == |g.nodes|
    ensures forall i :: 0 <= i < |r.nodes| ==> r.nodes[i] == g.nodes[i].(order := i)
  {
    g.(nodes := seq(|g.nodes|, i requires 0 <= i < |g.nodes| => g.nodes[i].(order := i)))
  }

  lemma RenumberedIsCanonical(g: Graph)
    requires WellFormed(g)
    ensures Canonical(Renumbered(g)) && (Renumbered(g) == g <==> Canonical(g))
  {
    var r := Renumbered(g);
    forall id | HasNode(g, id) ensures HasNode(r, id) {
      var i :| 0 <= i < |g.nodes| && g.nodes[i].id == id;
      assert r.nodes[i].id == id;
    }
    assert Canonical(g) ==> forall i :: 0 <= i < |g.nodes| ==> r.nodes[i] == g.nodes[i];
  }

  /** Orders are not printed. */
  lemma SameNodeStmts(a: seq<Node>, b: seq<Node>)
    requires |a| == |b| && forall i :: 0 <= i < |a| ==> a[i].id == b[i].id && a[i].attrs == b[i].attrs
    ensures NodeStmts(a) == NodeStmts(b)
  {
    assert forall i :: 0 <= i < |a| ==> NodeStmts(a)[i] == NodeStmts(b)[i];
  }

  /** Every well-formed graph, so every parsed one, comes back from its printed text
      with its nodes renumbered: unchanged exactly when merging left no gaps. */
  lemma WellFormedRoundTrip(cs: Charset, g: Graph)
    requires Sane(cs) && WellFormed(g)
    ensures G.Parse(cs, PrintGraph(g)) == Some(Renumbered(g))
    ensures G.Parse(cs, PrintGraph(g)) == Some(g) <==> Canonical(g)
  {
    hide Sane, Canonical, WellFormed, Source;
    RenumberedIsCanonical(g);
    SameNodeStmts(g.nodes, Renumbered(g).nodes);
    GraphRoundTrip(cs, Renumbered(g));
  }

  lemma BareNode(id: string, c: Scope)
    requires c.defaults == G.NO_DEFAULTS
    ensures Exec(NodeStmt(id, []), c) == c.(env := G.PutNode(c.env, id, map[]))
  {
    assert AttrsOf([]) == map[];
    assert G.NO_DEFAULTS.node + map[] == map[];
    hide AttrsOf, G.PutNode;
  }

  lemma NewNode(env: G.Env, id: string)
    requires forall i :: 0 <= i < |env.graph.nodes| ==> env.graph.nodes[i].id != id
    ensures G.PutNode(env, id, map[])
         == env.(graph := env.graph.(nodes := env.graph.nodes + [Node(id, map[], env.nodeOrder)]),
                 nodeOrder := env.nodeOrder + 1)
  {
  }

  lemma SameNode(env: G.Env, id: string)
    requires env.graph.nodes != [] && env.graph.nodes[0] == Node(id, map[], 0)
    ensures G.PutNode(env, id, map[]) == env.(nodeOrder := env.nodeOrder + 1)
  {
    var nodes := env.graph.nodes;
    assert IndexOf(nodes, id) == 0;
    var none: G.Attrs := map[];
    assert none + none == none;
    assert nodes[0 := nodes[0]] == nodes;
  }

  /** `x; x; y;` gives a graph whose second node has order 2. */
  lemma RepeatedNode(name: string, x: string, y: string)
    requires x != y
    ensures Meaning(name, [NodeStmt(x, []), NodeStmt(x, []), NodeStmt(y, [])])
         == Graph(name, [Node(x, map[], 0), Node(y, map[], 2)], [], map[])
  {
    var a, b := NodeStmt(x, []), NodeStmt(y, []);
    var c := Scope(G.EmptyEnv(name), G.NO_DEFAULTS);
    assert [a, a, b] == [a] + [a] + [b];
    hide Exec, ExecAll, G.PutNode;
    ExecInTwo([a] + [a], [b], c);
    ExecInTwo([a], [a], c);
    ExecOne(a, c);
    BareNode(x, c);
    NewNode(c.env, x);
    var c1 := Exec(a, c);
    ExecOne(a, c1);
    BareNode(x, c1);
    SameNode(c1.env, x);
    var c2 := Exec(a, c1);
    ExecOne(b, c2);
    BareNode(y, c2);
    NewNode(c2.env, y);
  }

  lemma MergingLeavesGaps(cs: Charset, name: string, x: string, y: string)
    requires Sane(cs) && x != y
    ensures var g := Graph(name, [Node(x, map[], 0), Node(y, map[], 2)], [], map[]);
            && G.Parse(cs, Source(name, [NodeStmt(x, []), NodeStmt(x, []), NodeStmt(y, [])])) == Some(g)
            && !Canonical(g)
  {
    hide *;
    ProgramParses(cs, name, [NodeStmt(x, []), NodeStmt(x, []), NodeStmt(y, [])]);
    RepeatedNode(name, x, y);
    HasGap(Graph(name, [Node(x, map[], 0), Node(y, map[], 2)], [], map[]));
  }

  lemma HasGap(g: Graph)
    requires |g.nodes| > 1 && g.nodes[1].order != 1
    ensures !Canonical(g)
  {
  }

  // ---- edge chains ----

  /** The chain's edges one by one. */
  function Pairwise(ids: seq<string>, items: Items): seq<Stmt> {
    if |ids| < 2 then []
    else Pairwise(ids[..|ids| - 1], items) + [ChainStmt(ids[|ids| - 2], ids[|ids| - 1], [], items)]
  }

  predicate AllPresent(env: G.Env, ids: seq<string>) {
    forall x :: x in ids ==> HasNode(env.graph, x)
  }

  lemma {:induction false} EnsuredArePresent(env: G.Env, ids: seq<string>, attrs: G.Attrs)
    ensures AllPresent(G.EnsureNodes(env, ids, attrs), ids)
    ensures forall x :: HasNode(env.graph, x) ==> HasNode(G.EnsureNodes(env, ids, attrs).graph, x)
  {
    if ids != [] {
      var front := ids[..|ids| - 1];
      EnsuredArePresent(env, front, attrs);
      assert ids == front + [ids[|ids| - 1]];
    }
  }

  lemma {:induction false} EdgesKeepNodes(env: G.Env, ids: seq<string>, attrs: G.Attrs)
    ensures G.PutEdges(env, ids, attrs).graph.nodes == env.graph.nodes
    ensures G.PutEdges(env, ids, attrs).nodeOrder == env.nodeOrder
  {
    if |ids| >= 2 {
      EdgesKeepNodes(env, ids[..|ids| - 1], attrs);
    }
  }

  /** Adding a node and adding edges do not disturb each other. */
  lemma {:induction false} NodeAfterEdges(env: G.Env, ids: seq<string>, attrs: G.Attrs, id: string, nodeAttrs: G.Attrs)
    ensures G.EnsureNode(G.PutEdges(env, ids, attrs), id, nodeAttrs)
       == G.PutEdges(G.EnsureNode(env, id, nodeAttrs), ids, attrs)
  {
    if |ids| >= 2 {
      var front := ids[..|ids| - 1];
      NodeAfterEdges(env, front, attrs, id, nodeAttrs);
      EdgesKeepNodes(env, front, attrs);
      NodeAfterEdge(G.PutEdges(env, front, attrs), ids[|ids| - 2], ids[|ids| - 1], attrs, id, nodeAttrs);
    }
  }

  lemma NodeAfterEdge(env: G.Env, from: string, to: string, attrs: G.Attrs, id: string, nodeAttrs: G.Attrs)
    ensures G.EnsureNode(G.PutEdge(env, from, to, attrs), id, nodeAttrs)
       == G.PutEdge(G.EnsureNode(env, id, nodeAttrs), from, to, attrs)
  {
    var after := G.PutEdge(env, from, to, attrs);
    assert after.graph.nodes == env.graph.nodes;
    assert HasNode(after.graph, id) <==> HasNode(env.graph, id);
  }

  lemma ChainOfTwo(env: G.Env, d: G.Defaults, from: string, to: string, attrs: G.Attrs)
    requires HasNode(env.graph, from)
    ensures G.PutChain(env, d, [from, to], attrs) == G.PutEdge(G.EnsureNode(env, to, d.node), from, to, d.edge + attrs)
  {
    var ids := [from, to];
    assert ids[..1] == [from] && [from][..0] == [];
    assert G.EnsureNodes(env, [], d.node) == env;
    assert G.EnsureNodes(env, [from], d.node) == env;
    assert G.PutEdges(G.EnsureNodes(env, ids, d.node), [from], d.edge + attrs) == G.EnsureNodes(env, ids, d.node);
  }

  /** One more node at the end of a chain is one more edge statement. */
  lemma ChainGrows(env: G.Env, d: G.Defaults, ids: seq<string>, to: string, attrs: G.Attrs)
    requires |ids| >= 2
    ensures G.PutChain(env, d, ids + [to], attrs)
       == G.PutChain(G.PutChain(env, d, ids, attrs), d, [ids[|ids| - 1], to], attrs)
  {
    hide G.EnsureNode, G.PutEdge, HasNode;
    var longer, from, all := ids + [to], ids[|ids| - 1], d.edge + attrs;
    assert longer[..|ids|] == ids && longer[|ids| - 1] == from && longer[|ids|] == to;
    var e1 := G.EnsureNodes(env, ids, d.node);
    NodeAfterEdges(e1, ids, all, to, d.node);
    EnsuredArePresent(env, ids, d.node);
    EdgesKeepNodes(e1, ids, all);
    assert HasNode(G.PutEdges(e1, ids, all).graph, from) by {
      SameNodes(e1.graph, G.PutEdges(e1, ids, all).graph, from);
    }
    ChainOfTwo(G.PutEdges(e1, ids, all), d, from, to, attrs);
  }

  lemma SameNodes(a: Graph, b: Graph, id: string)
    requires a.nodes == b.nodes && HasNode(a, id)
    ensures HasNode(b, id)
  {
  }

  lemma {:induction false} ChainIsPairwise(ids: seq<string>, items: Items, c: Scope)
    requires |ids| >= 2
    ensures ExecAll(Pairwise(ids, items), c) == c.(env := G.PutChain(c.env, c.defaults, ids, AttrsOf(items)))
    decreases |ids|
  {
    hide G.PutChain, AttrsOf;
    var front, from, to := ids[..|ids| - 1], ids[|ids| - 2], ids[|ids| - 1];
    var last := ChainStmt(from, to, [], items);
    assert [from, to] + [] == [from, to];
    if |ids| == 2 {
      assert Pairwise(front, items) == [] && Pairwise(ids, items) == [last];
      assert ids == [from, to];
      ExecOne(last, c);
    } else {
      ChainIsPairwise(front, items, c);
      ExecInTwo(Pairwise(front, items), [last], c);
      ExecOne(last, ExecAll(Pairwise(front, items), c));
      assert ids == front + [to];
      ChainGrows(c.env, c.defaults, front, to, AttrsOf(items));
    }
  }

  /** Replacing statements by others that do the same changes no parse. */
  lemma {:induction false} Replace(cs: Charset, name: string, pre: seq<Stmt>, a: seq<Stmt>, b: seq<Stmt>,
    post: seq<Stmt>)
    requires Sane(cs) && forall c: Scope :: ExecAll(a, c) == ExecAll(b, c)
    ensures G.Parse(cs, Source(name, pre + a + post)) == G.Parse(cs, Source(name, pre + b + post))
  {
    hide Sane, ExecAll, Source;
    var c := Scope(G.EmptyEnv(name), G.NO_DEFAULTS);
    ProgramParses(cs, name, pre + a + post);
    ProgramParses(cs, name, pre + b + post);
    ExecInTwo(pre + a, post, c);
    ExecInTwo(pre, a, c);
    ExecInTwo(pre + b, post, c);
    ExecInTwo(pre, b, c);
  }

  /** An edge chain with attributes, anywhere in a program, builds the graph, with
      all its orders, that its edges written one by one build. */
  lemma {:induction false} ChainDesugars(cs: Charset, name: string, pre: seq<Stmt>, chain: Stmt, post: seq<Stmt>)
    requires Sane(cs) && chain.ChainStmt?
    ensures G.Parse(cs, Source(name, pre + [chain] + post))
         == G.Parse(cs, Source(name, pre + Pairwise([chain.first, chain.second] + chain.more, chain.items) + post))
  {
    hide Sane, Source;
    var ids := [chain.first, chain.second] + chain.more;
    forall c: Scope ensures ExecAll([chain], c) == ExecAll(Pairwise(ids, chain.items), c) {
      ExecOne(chain, c);
      ChainIsPairwise(ids, chain.items, c);
    }
    Replace(cs, name, pre, [chain], Pairwise(ids, chain.items), post);
  }

  // ---- subgraphs ----

  predicate SetsNoDefaults(body: seq<Stmt>) {
    forall s :: s in body ==> !s.NodeDefaults? && !s.EdgeDefaults?
  }

  lemma {:induction false} DefaultsKept(body: seq<Stmt>, c: Scope)
    requires SetsNoDefaults(body)
    ensures ExecAll(body, c).defaults == c.defaults
    decreases |body|
  {
    if body != [] {
      assert body[0] in body;
      DefaultsKept(body[1..], Exec(body[0], c));
    }
  }

  /** A subgraph that sets no defaults at its own level, anywhere in a program,
      builds what its statements build without the braces. */
  lemma {:induction false} SubgraphInlines(cs: Charset, name: string, pre: seq<Stmt>, sub: Stmt, post: seq<Stmt>)
    requires Sane(cs) && sub.Subgraph? && SetsNoDefaults(sub.body)
    ensures G.Parse(cs, Source(name, pre + [sub] + post)) == G.Parse(cs, Source(name, pre + sub.body + post))
  {
    hide Sane, Source, SetsNoDefaults;
    forall c: Scope ensures ExecAll([sub], c) == ExecAll(sub.body, c) {
      ExecOne(sub, c);
      DefaultsKept(sub.body, c);
    }
    Replace(cs, name, pre, [sub], sub.body, post);
  }

  /** What follows a subgraph runs under the defaults of what precedes it, wherever
      and however often the body sets its own. */
  lemma SiblingsKeepDefaults(cs: Charset, name: string, pre: seq<Stmt>, sub: Stmt, post: seq<Stmt>)
    requires Sane(cs) && sub.Subgraph?
    ensures var before := ExecAll(pre, Scope(G.EmptyEnv(name), G.NO_DEFAULTS));
            var inside := ExecAll(sub.body, before);
            G.Parse(cs, Source(name, pre + [sub] + post))
              == Some(ExecAll(post, Scope(inside.env, before.defaults)).env.graph)
  {
    hide Sane, ExecAll, Source;
    var c := Scope(G.EmptyEnv(name), G.NO_DEFAULTS);
    ProgramParses(cs, name, pre + [sub] + post);
    ExecInTwo(pre + [sub], post, c);
    ExecInTwo(pre, [sub], c);
    ExecOne(sub, ExecAll(pre, c));
  }

  /** Of a subgraph only what its body builds is seen from outside: bodies that
      build the same in every scope, whatever defaults they end with, can stand for
      each other. */
  lemma {:induction false} OnlyBuiltIsSeen(cs: Charset, name: string, pre: seq<Stmt>, a: Stmt, b: Stmt, post: seq<Stmt>)
    requires Sane(cs) && a.Subgraph? && b.Subgraph?
    requires forall c: Scope :: ExecAll(a.body, c).env == ExecAll(b.body, c).env
    ensures G.Parse(cs, Source(name, pre + [a] + post)) == G.Parse(cs, Source(name, pre + [b] + post))
  {
    hide Sane, Source, ExecAll;
    forall c: Scope ensures ExecAll([a], c) == ExecAll([b], c) {
      ExecOne(a, c);
      ExecOne(b, c);
    }
    Replace(cs, name, pre, [a], [b], post);
  }

  /** So a default set inside never reaches the later siblings: as the last thing
      inside it makes no difference at all. */
  lemma {:induction false} DefaultsStayInside(cs: Charset, name: string, pre: seq<Stmt>, title: string,
    body: seq<Stmt>, d: Stmt, post: seq<Stmt>)
    requires Sane(cs) && (d.NodeDefaults? || d.EdgeDefaults?)
    ensures G.Parse(cs, Source(name, pre + [Subgraph(title, body + [d])] + post))
         == G.Parse(cs, Source(name, pre + [Subgraph(title, body)] + post))
  {
    hide Sane, Source, ExecAll;
    forall c: Scope ensures ExecAll(body + [d], c).env == ExecAll(body, c).env {
      ExecInTwo(body, [d], c);
      ExecOne(d, ExecAll(body, c));
    }
    OnlyBuiltIsSeen(cs, name, pre, Subgraph(title, body + [d]), Subgraph(title, body), post);
  }
}
