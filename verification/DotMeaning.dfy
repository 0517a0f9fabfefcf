/** What the statements of a program do to a graph, key by key: which value an
    attribute ends up with, and which nodes and edges there are. */
module DotMeaning {
  import opened Text
  import opened Model
  import opened DotPrinter
  import opened DotProgram
  import opened DotTheorems

  // ---- attribute lists ----

  /** The value of the last item with that key. */
  function LastValue(items: Items, key: string): Option<string> {
    if items == [] then None
    else
      var last := items[|items| - 1];
      if last.0 == key then Some(last.1) else LastValue(items[..|items| - 1], key)
  }

  function Else(a: Option<string>, b: Option<string>): Option<string> {
    if a.Some? then a else b
  }

  lemma {:induction false} FoldIs(items: Items, acc: G.Attrs, key: string)
    ensures Find(Fold(items, acc), key) == Else(LastValue(items, key), Find(acc, key))
    decreases |items|
  {
    if items != [] {
      FoldIs(items[1..], acc[items[0].0 := items[0].1], key);
      FirstItem(items, key);
    }
  }

  lemma {:induction false} FirstItem(items: Items, key: string)
    requires items != []
    ensures LastValue(items, key) ==
              Else(LastValue(items[1..], key), if items[0].0 == key then Some(items[0].1) else None)
    decreases |items|
  {
    var n := |items| - 1;
    if n > 0 {
      FirstItem(items[..n], key);
      assert items[1..][..n - 1] == items[..n][1..];
    }
  }

  lemma AttrsAre(items: Items, key: string)
    ensures Find(AttrsOf(items), key) == LastValue(items, key)
  {
    FoldIs(items, map[], key);
  }

  // ---- statement by statement ----

  predicate SameButAttrs(c: Scope, r: Scope) {
    && r.defaults == c.defaults && r.env.nodeOrder == c.env.nodeOrder && r.env.edgeOrder == c.env.edgeOrder
    && r.env.graph.nodes == c.env.graph.nodes && r.env.graph.edges == c.env.graph.edges
    && r.env.graph.name == c.env.graph.name
  }

  /** Graph attributes: the latest statement that sets a key decides it. */
  lemma GraphAttrsMean(items: Items, c: Scope, key: string)
    ensures var r := Exec(GraphAttrs(items), c);
            SameButAttrs(c, r) &&
               Find(r.env.graph.attrs, key) == Else(LastValue(items, key), Find(c.env.graph.attrs, key))
  {
    AttrsAre(items, key);
  }

  lemma AssignMeans(k: string, v: string, c: Scope, key: string)
    ensures var r := Exec(Assign(k, v), c);
            && SameButAttrs(c, r)
            && Find(r.env.graph.attrs, key) == if key == k then Some(v) else Find(c.env.graph.attrs, key)
  {
  }

  /** Defaults: the latest statement decides a key, for its own kind only. */
  lemma DefaultsMean(items: Items, c: Scope, key: string)
    ensures var r := Exec(NodeDefaults(items), c);
            && r.env == c.env && r.defaults.edge == c.defaults.edge
            && Find(r.defaults.node, key) == Else(LastValue(items, key), Find(c.defaults.node, key))
    ensures var r := Exec(EdgeDefaults(items), c);
            && r.env == c.env && r.defaults.node == c.defaults.node
            && Find(r.defaults.edge, key) == Else(LastValue(items, key), Find(c.defaults.edge, key))
  {
    AttrsAre(items, key);
  }

  /** A node statement: for each key of its node, its own items decide, then the
      defaults, then what the node had. A known node keeps its place. */
  lemma NodeStmtMeans(id: string, items: Items, c: Scope)
    requires DistinctIDs(c.env.graph.nodes)
    ensures var r := Exec(NodeStmt(id, items), c);
            var was, now := c.env.graph.nodes, r.env.graph.nodes;
            && r.defaults == c.defaults && r.env.graph.edges == c.env.graph.edges
            && r.env.graph.attrs == c.env.graph.attrs
            && exists i :: 0 <= i <= |was| && i < |now| && now[i].id == id
                 && (i == |was| <==> !HasNode(c.env.graph, id))
                 && now == (if i < |was| then was[i := now[i]] else was + [now[i]])
                 && now[i].order == (if i < |was| then was[i].order else c.env.nodeOrder)
                 && forall key :: Find(now[i].attrs, key) ==
                      Else(LastValue(items, key),
                           Else(Find(c.defaults.node, key), if i < |was| then Find(was[i].attrs, key) else None))
  {
    hide WithNode;
    var g, attrs := c.env.graph, c.defaults.node + AttrsOf(items);
    var n := Node(id, attrs, c.env.nodeOrder);
    forall key ensures Find(attrs, key) == Else(LastValue(items, key), Find(c.defaults.node, key)) {
      AttrsAre(items, key);
    }
    var now := Exec(NodeStmt(id, items), c).env.graph.nodes;
    if HasNode(g, id) {
      var i :| 0 <= i < |g.nodes| && g.nodes[i].id == id;
      MergedNode(g, n, i);
      assert now == g.nodes[i := now[i]];
    } else {
      AppendedNode(g, n);
    }
  }

  /** A node that a chain mentions: as it is if it is there, else new, last, with
      exactly the node defaults. */
  lemma MentionedNode(env: G.Env, id: string, defaults: G.Attrs)
    ensures G.EnsureNode(env, id, defaults) ==
              if HasNode(env.graph, id) then env
              else env.(graph := env.graph.(nodes := env.graph.nodes + [Node(id, defaults, env.nodeOrder)]),
                        nodeOrder := env.nodeOrder + 1)
  {
    hide WithNode;
    if !HasNode(env.graph, id) {
      AppendedNode(env.graph, Node(id, defaults, env.nodeOrder));
    }
  }

  /** The edges of a chain, behind those there are: edge j from the j-th node to the
      next, numbered on, each with the same attributes. */
  lemma {:induction false} ChainEdges(env: G.Env, ids: seq<string>, attrs: G.Attrs)
    requires |ids| >= 1
    ensures var r, n := G.PutEdges(env, ids, attrs), |ids| - 1;
            && r.graph.nodes == env.graph.nodes && r.graph.attrs == env.graph.attrs && r.edgeOrder == env.edgeOrder + n
            && |r.graph.edges| == |env.graph.edges| + n && r.graph.edges[..|env.graph.edges|] == env.graph.edges
            && forall j :: 0 <= j < n ==>
                 r.graph.edges[|env.graph.edges| + j] == Edge(ids[j], ids[j + 1], attrs, env.edgeOrder + j)
    decreases |ids|
  {
    if |ids| > 1 {
      ChainEdges(env, ids[..|ids| - 1], attrs);
    }
  }

  ghost predicate EdgeIs(e: Edge, from: string, to: string, order: int, items: Items, defaults: G.Attrs) {
    && e.from == from && e.to == to && e.order == order
    && forall key :: Find(e.attrs, key) == Else(LastValue(items, key), Find(defaults, key))
  }

  /** A chain statement: for each key of its edges, its own items decide, then the
      edge defaults. */
  lemma ChainMeans(s: Stmt, c: Scope)
    requires s.ChainStmt?
    ensures var r, ids := Exec(s, c), [s.first, s.second] + s.more;
            var before := |c.env.graph.edges|;
            && r.defaults == c.defaults && r.env.graph.nodes == G.EnsureNodes(c.env, ids, c.defaults.node).graph.nodes
            && |r.env.graph.edges| == before + |ids| - 1
            && forall j :: 0 <= j < |ids| - 1 ==>
                 EdgeIs(r.env.graph.edges[before + j], ids[j], ids[j + 1], c.env.edgeOrder + j,
                        s.items, c.defaults.edge)
  {
    hide G.EnsureNodes, G.PutEdges;
    var ids := [s.first, s.second] + s.more;
    var env := G.EnsureNodes(c.env, ids, c.defaults.node);
    EnsuredKeepEdges(c.env, ids, c.defaults.node);
    ChainEdges(env, ids, c.defaults.edge + AttrsOf(s.items));
    var r, before := Exec(s, c), |c.env.graph.edges|;
    assert r.env == G.PutEdges(env, ids, c.defaults.edge + AttrsOf(s.items));
    assert before == |env.graph.edges|;
    forall j | 0 <= j < |ids| - 1
      ensures EdgeIs(r.env.graph.edges[before + j], ids[j], ids[j + 1], c.env.edgeOrder + j, s.items, c.defaults.edge)
    {
      assert r.env.graph.edges[|env.graph.edges| + j] ==
        Edge(ids[j], ids[j + 1], c.defaults.edge + AttrsOf(s.items), env.edgeOrder + j);
      forall key ensures Find(c.defaults.edge + AttrsOf(s.items), key) ==
                           Else(LastValue(s.items, key), Find(c.defaults.edge, key)) {
        AttrsAre(s.items, key);
      }
    }
  }

  lemma {:induction false} EnsuredKeepEdges(env: G.Env, ids: seq<string>, attrs: G.Attrs)
    ensures G.EnsureNodes(env, ids, attrs).graph.edges == env.graph.edges
    ensures G.EnsureNodes(env, ids, attrs).edgeOrder == env.edgeOrder
    decreases |ids|
  {
    if ids != [] {
      EnsuredKeepEdges(env, ids[..|ids| - 1], attrs);
      MentionedNode(G.EnsureNodes(env, ids[..|ids| - 1], attrs), ids[|ids| - 1], attrs);
    }
  }

  // ---- on source texts ----

  /** The last node statement of a text decides the keys it names, whatever node
      statements, defaults and chains came before. */
  lemma LastNodeStatementWins(cs: Charset, name: string, pre: seq<Stmt>, id: string, items: Items)
    requires Sane(cs)
    ensures var g := G.Parse(cs, Source(name, pre + [NodeStmt(id, items)]));
            && g.Some? && NodeByID(g.value, id).Some?
            && forall key :: LastValue(items, key).Some? ==>
                 Find(NodeByID(g.value, id).value.attrs, key) == LastValue(items, key)
  {
    hide Sane, Source, ExecAll, Exec, NodeByID, LastValue;
    var c := Scope(G.EmptyEnv(name), G.NO_DEFAULTS);
    ProgramParses(cs, name, pre + [NodeStmt(id, items)]);
    ExecInTwo(pre, [NodeStmt(id, items)], c);
    var before := ExecAll(pre, c);
    ExecOne(NodeStmt(id, items), before);
    ParsesSoFar(cs, name, pre);
    NodeStmtMeans(id, items, before);
    var g := Exec(NodeStmt(id, items), before).env.graph;
    G.ParsedIsWellFormed(cs, Source(name, pre + [NodeStmt(id, items)]));
    var now := g.nodes;
    var i :| 0 <= i < |now| && now[i].id == id
          && forall key :: LastValue(items, key).Some? ==> Find(now[i].attrs, key) == LastValue(items, key);
    FindNodeIn(g, now[i]);
  }

  lemma FindNodeIn(g: Graph, n: Node)
    requires WellFormed(g) && n in g.nodes
    ensures NodeByID(g, n.id) == Some(n)
  {
    FindNodeUnique(g.nodes, n);
  }

  /** Every program builds distinct nodes. */
  lemma ParsesSoFar(cs: Charset, name: string, pre: seq<Stmt>)
    requires Sane(cs)
    ensures DistinctIDs(ExecAll(pre, Scope(G.EmptyEnv(name), G.NO_DEFAULTS)).env.graph.nodes)
  {
    hide Sane, Source, ExecAll;
    ProgramParses(cs, name, pre);
    G.ParsedIsWellFormed(cs, Source(name, pre));
  }

  /** `a [label=x]; a [label=y];` gives a the label y. */
  lemma RepeatedNodeTakesLaterLabel(cs: Charset, name: string, id: string, x: string, y: string)
    requires Sane(cs)
    ensures var g := G.Parse(cs, Source(name, [NodeStmt(id, [("label", x)]), NodeStmt(id, [("label", y)])]));
            g.Some? && NodeByID(g.value, id).Some? && Find(NodeByID(g.value, id).value.attrs, "label") == Some(y)
  {
    hide *;
    LabelIsLast(y);
    LastNodeStatementWins(cs, name, [NodeStmt(id, [("label", x)])], id, [("label", y)]);
    assert [NodeStmt(id, [("label", x)])] + [NodeStmt(id, [("label", y)])]
        == [NodeStmt(id, [("label", x)]), NodeStmt(id, [("label", y)])];
  }

  lemma LabelIsLast(y: string)
    ensures LastValue([("label", y)], "label") == Some(y)
  {
  }
}
