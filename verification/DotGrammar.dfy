/** internal/attractor/dot/parser.go as functions over the token stream: which
    graph a text denotes. None stands for any parse error. */
module DotGrammar {
  import opened Text
  import opened Model
  import opened DotLexer

  type Attrs = map<string, string>

  /** What the parser carries besides its place in the text. */
  datatype Env = Env(graph: Graph, nodeOrder: nat, edgeOrder: nat)

  /** The default attributes in force, which `node [...]` and `edge [...]` extend. */
  datatype Defaults = Defaults(node: Attrs, edge: Attrs)

  datatype Progress = Progress(env: Env, defaults: Defaults, rest: Stream)

  function KindOf(s: Stream): Kind {
    if s.More? then s.tok.kind else EOF
  }

  function TextOf(s: Stream): string {
    if s.More? then s.tok.text else ""
  }

  predicate IsName(k: Kind) {
    k == Ident || k == Quoted
  }

  function Size(s: Stream): nat {
    match s
    case More(_, rest) => 1 + Size(rest)
    case _ => 0
  }

  // ---- parser steps ----

  /** advance: reading the next token may fail. */
  function Next(s: Stream): (r: Option<Stream>)
    ensures r.Some? && s.More? ==> Size(r.value) < Size(s)
    ensures r.Some? ==> !r.value.Broken? && Size(r.value) <= Size(s)
  {
    match s
    case More(_, Broken) => None
    case More(_, rest) => Some(rest)
    case End => Some(End)
    case Broken => None
  }

  function Expect(s: Stream, k: Kind): (r: Option<Stream>)
    requires k != EOF
    ensures r.Some? ==> Size(r.value) < Size(s) && !r.value.Broken?
  {
    if KindOf(s) == k then Next(s) else None
  }

  function SkipSeparator(s: Stream): (r: Option<Stream>)
    ensures r.Some? ==> Size(r.value) <= Size(s)
  {
    if KindOf(s) in {Comma, Semicolon} then Next(s) else Some(s)
  }

  /** An identifier or a string, with its text. */
  function Name(s: Stream): (r: Option<(string, Stream)>)
    ensures r.Some? ==> Size(r.value.1) < Size(s)
  {
    if !IsName(KindOf(s)) then None
    else
      match Next(s)
      case None => None
      case Some(s1) => Some((TextOf(s), s1))
  }

  /** key = value, and a comma or semicolon if there is one. */
  function AttrEntry(s: Stream): (r: Option<(string, string, Stream)>)
    ensures r.Some? ==> Size(r.value.2) < Size(s)
  {
    match Name(s)
    case None => None
    case Some((key, s1)) =>
      match Expect(s1, Equals)
      case None => None
      case Some(s2) =>
        match Name(s2)
        case None => None
        case Some((val, s3)) =>
          match SkipSeparator(s3)
          case None => None
          case Some(s4) => Some((key, val, s4))
  }

  /** The entries of an attribute list up to its bracket. */
  function AttrEntries(s: Stream, acc: Attrs): (r: Option<(Attrs, Stream)>)
    ensures r.Some? ==> Size(r.value.1) < Size(s)
    decreases Size(s)
  {
    if KindOf(s) == RBracket || KindOf(s) == EOF then
      match Expect(s, RBracket)
      case Some(s1) => Some((acc, s1))
      case None => None
    else
      match AttrEntry(s)
      case None => None
      case Some((key, val, s1)) => AttrEntries(s1, acc[key := val])
  }

  function AttrList(s: Stream): (r: Option<(Attrs, Stream)>)
    ensures r.Some? ==> Size(r.value.1) < Size(s)
  {
    match Expect(s, LBracket)
    case None => None
    case Some(s1) => AttrEntries(s1, map[])
  }

  function OptionalAttrs(s: Stream): (r: Option<(Attrs, Stream)>)
    ensures r.Some? ==> Size(r.value.1) <= Size(s)
  {
    if KindOf(s) == LBracket then AttrList(s) else Some((map[], s))
  }

  /** The further nodes of an edge chain. */
  function ChainTail(s: Stream, ids: seq<string>): (r: Option<(seq<string>, Stream)>)
    ensures r.Some? ==> Size(r.value.1) <= Size(s) && ids <= r.value.0
    ensures r.Some? && KindOf(s) == Arrow ==> |r.value.0| > |ids|
    decreases Size(s)
  {
    if KindOf(s) != Arrow then Some((ids, s))
    else
      match Next(s)
      case None => None
      case Some(s1) =>
        if !IsName(KindOf(s1)) then None
        else
          match Next(s1)
          case None => None
          case Some(s2) => ChainTail(s2, ids + [TextOf(s1)])
  }

  // ---- what statements do ----

  function SetGraphAttrs(env: Env, attrs: Attrs): Env {
    env.(graph := env.graph.(attrs := env.graph.attrs + attrs))
  }

  /** A node statement: the order is spent even when the node exists already. */
  function PutNode(env: Env, id: string, attrs: Attrs): Env {
    env.(graph := WithNode(env.graph, Node(id, attrs, env.nodeOrder)), nodeOrder := env.nodeOrder + 1)
  }

  /** A node mentioned by an edge: created with the defaults unless present. */
  function EnsureNode(env: Env, id: string, attrs: Attrs): Env {
    if HasNode(env.graph, id) then env else PutNode(env, id, attrs)
  }

  function EnsureNodes(env: Env, ids: seq<string>, attrs: Attrs): Env {
    if ids == [] then env else EnsureNode(EnsureNodes(env, ids[..|ids| - 1], attrs), ids[|ids| - 1], attrs)
  }

  function PutEdge(env: Env, from: string, to: string, attrs: Attrs): Env {
    env.(graph := WithEdge(env.graph, Edge(from, to, attrs, env.edgeOrder)), edgeOrder := env.edgeOrder + 1)
  }

  /** One edge for each pair of neighbours in the chain. */
  function PutEdges(env: Env, ids: seq<string>, attrs: Attrs): Env {
    if |ids| < 2 then env
    else PutEdge(PutEdges(env, ids[..|ids| - 1], attrs), ids[|ids| - 2], ids[|ids| - 1], attrs)
  }

  function PutChain(env: Env, d: Defaults, ids: seq<string>, attrs: Attrs): Env {
    PutEdges(EnsureNodes(env, ids, d.node), ids, d.edge + attrs)
  }

  // ---- statements ----

  function AttrStmt(s: Stream, env: Env, d: Defaults): (r: Option<Progress>)
    requires KindOf(s) in {GraphKeyword, NodeKeyword, EdgeKeyword}
    ensures r.Some? ==> Size(r.value.rest) < Size(s)
  {
    match Next(s)
    case None => None
    case Some(s1) =>
      match OptionalAttrs(s1)
      case None => None
      case Some((attrs, s2)) =>
        if KindOf(s) == GraphKeyword then Some(Progress(SetGraphAttrs(env, attrs), d, s2))
        else if KindOf(s) == NodeKeyword then Some(Progress(env, d.(node := d.node + attrs), s2))
        else Some(Progress(env, d.(edge := d.edge + attrs), s2))
  }

  function AssignStmt(s: Stream, key: string, env: Env, d: Defaults): (r: Option<Progress>)
    requires s.More?
    ensures r.Some? ==> Size(r.value.rest) <= Size(s)
  {
    match Next(s)
    case None => None
    case Some(s1) =>
      if !IsName(KindOf(s1)) then None
      else
        match Next(s1)
        case None => None
        case Some(s2) => Some(Progress(SetGraphAttrs(env, map[key := TextOf(s1)]), d, s2))
  }

  function EdgeStmt(s: Stream, first: string, env: Env, d: Defaults): (r: Option<Progress>)
    ensures r.Some? ==> Size(r.value.rest) <= Size(s)
  {
    match ChainTail(s, [first])
    case None => None
    case Some((ids, s1)) =>
      match OptionalAttrs(s1)
      case None => None
      case Some((attrs, s2)) => Some(Progress(PutChain(env, d, ids, attrs), d, s2))
  }

  function NodeStmt(s: Stream, id: string, env: Env, d: Defaults): (r: Option<Progress>)
    ensures r.Some? ==> Size(r.value.rest) <= Size(s)
  {
    match OptionalAttrs(s)
    case None => None
    case Some((attrs, s1)) => Some(Progress(PutNode(env, id, d.node + attrs), d, s1))
  }

  function NodeOrEdgeStmt(s: Stream, env: Env, d: Defaults): (r: Option<Progress>)
    requires IsName(KindOf(s))
    ensures r.Some? ==> Size(r.value.rest) < Size(s)
  {
    match Next(s)
    case None => None
    case Some(s1) =>
      if KindOf(s1) == Equals then AssignStmt(s1, TextOf(s), env, d)
      else if KindOf(s1) == Arrow then EdgeStmt(s1, TextOf(s), env, d)
      else NodeStmt(s1, TextOf(s), env, d)
  }

  function SkipSemicolons(s: Stream): (r: Option<Stream>)
    ensures r.Some? ==> Size(r.value) <= Size(s)
    decreases Size(s)
  {
    if KindOf(s) != Semicolon then Some(s)
    else
      match Next(s)
      case None => None
      case Some(s1) => SkipSemicolons(s1)
  }

  /** Inside a subgraph the defaults start as a copy; outside they stay as they were. */
  function SubgraphStmt(s: Stream, env: Env, d: Defaults): (r: Option<Progress>)
    ensures r.Some? ==> Size(r.value.rest) < Size(s)
    decreases Size(s), 0
  {
    match Expect(s, Subgraph)
    case None => None
    case Some(s1) =>
      match GraphName(s1)
      case None => None
      case Some((_, s2)) =>
        match Block(s2, env, d)
        case None => None
        case Some(p) => Some(Progress(p.env, d, p.rest))
  }

  /** Statements in braces, with the defaults they end with. */
  function Block(s: Stream, env: Env, d: Defaults): (r: Option<Progress>)
    ensures r.Some? ==> Size(r.value.rest) < Size(s)
    decreases Size(s), 0
  {
    match Expect(s, LBrace)
    case None => None
    case Some(s1) =>
      match Statements(s1, env, d)
      case None => None
      case Some(p) =>
        match Expect(p.rest, RBrace)
        case None => None
        case Some(s2) => Some(p.(rest := s2))
  }

  function Statement(s: Stream, env: Env, d: Defaults): (r: Option<Progress>)
    ensures r.Some? ==> Size(r.value.rest) < Size(s)
    decreases Size(s), 1
  {
    match KindOf(s)
    case GraphKeyword => AttrStmt(s, env, d)
    case NodeKeyword => AttrStmt(s, env, d)
    case EdgeKeyword => AttrStmt(s, env, d)
    case Subgraph => SubgraphStmt(s, env, d)
    case Ident => NodeOrEdgeStmt(s, env, d)
    case Quoted => NodeOrEdgeStmt(s, env, d)
    case _ => None
  }

  function Statements(s: Stream, env: Env, d: Defaults): (r: Option<Progress>)
    ensures r.Some? ==> Size(r.value.rest) <= Size(s)
    decreases Size(s), 2
  {
    if KindOf(s) == RBrace || KindOf(s) == EOF then Some(Progress(env, d, s))
    else
      match Statement(s, env, d)
      case None => None
      case Some(p) =>
        match SkipSemicolons(p.rest)
        case None => None
        case Some(s1) => Statements(s1, p.env, p.defaults)
  }

  const NO_DEFAULTS := Defaults(map[], map[])

  function EmptyEnv(name: string): Env {
    Env(Graph(name, [], [], map[]), 0, 0)
  }

  function GraphName(s: Stream): (r: Option<(string, Stream)>)
    ensures r.Some? ==> Size(r.value.1) <= Size(s)
  {
    if !IsName(KindOf(s)) then Some(("", s))
    else
      match Next(s)
      case None => None
      case Some(s1) => Some((TextOf(s), s1))
  }

  /** parseDigraph. What follows the closing brace is read one token far. */
  function Digraph(s: Stream): Option<Graph> {
    match Expect(s, Kind.Digraph)
    case None => None
    case Some(s1) =>
      match GraphName(s1)
      case None => None
      case Some((name, s2)) =>
        match Block(s2, EmptyEnv(name), NO_DEFAULTS)
        case None => None
        case Some(p) => Some(p.env.graph)
  }

  /** The graph of a source text. */
  function Parse(cs: Charset, src: string): Option<Graph> {
    var s := Lex(cs, src);
    if s.Broken? then None else Digraph(s)
  }

  // ---- what every parse keeps ----

  /** The environment's graph is well formed, and the counters are ahead of it. */
  ghost predicate Sound(env: Env) {
    && WellFormed(env.graph)
    && (forall n :: n in env.graph.nodes ==> n.order < env.nodeOrder)
    && env.edgeOrder == |env.graph.edges|
  }

  lemma PutNodeSound(env: Env, id: string, attrs: Attrs)
    requires Sound(env)
    ensures Sound(PutNode(env, id, attrs)) && HasNode(PutNode(env, id, attrs).graph, id)
    ensures forall x :: HasNode(env.graph, x) ==> HasNode(PutNode(env, id, attrs).graph, x)
  {
    var g, n := env.graph, Node(id, attrs, env.nodeOrder);
    var r, i := WithNode(g, n), IndexOf(g.nodes, id);
    assert r.edges == g.edges;
    if i < |g.nodes| {
      assert forall j :: 0 <= j < |g.nodes| ==> r.nodes[j].order == g.nodes[j].order;
    }
  }

  lemma {:induction false} EnsureNodesSound(env: Env, ids: seq<string>, attrs: Attrs)
    requires Sound(env)
    ensures var r := EnsureNodes(env, ids, attrs);
            && Sound(r) && r.edgeOrder == env.edgeOrder && r.graph.edges == env.graph.edges
            && (forall x :: x in ids ==> HasNode(r.graph, x))
  {
    hide Sound, HasNode;
    if ids != [] {
      var front, last := ids[..|ids| - 1], ids[|ids| - 1];
      EnsureNodesSound(env, front, attrs);
      PutNodeSound(EnsureNodes(env, front, attrs), last, attrs);
      assert ids == front + [last];
    }
  }

  lemma PutEdgeSound(env: Env, from: string, to: string, attrs: Attrs)
    requires Sound(env) && HasNode(env.graph, from) && HasNode(env.graph, to)
    ensures Sound(PutEdge(env, from, to, attrs))
  {
    var g, r := env.graph, PutEdge(env, from, to, attrs).graph;
    assert r.nodes == g.nodes;
    assert forall x :: HasNode(g, x) ==> HasNode(r, x);
  }

  lemma {:induction false} PutEdgesSound(env: Env, ids: seq<string>, attrs: Attrs)
    requires Sound(env) && forall x :: x in ids ==> HasNode(env.graph, x)
    ensures Sound(PutEdges(env, ids, attrs)) && PutEdges(env, ids, attrs).graph.nodes == env.graph.nodes
  {
    hide Sound;
    if |ids| >= 2 {
      var front := ids[..|ids| - 1];
      PutEdgesSound(env, front, attrs);
      PutEdgeSound(PutEdges(env, front, attrs), ids[|ids| - 2], ids[|ids| - 1], attrs);
    }
  }

  lemma PutChainSound(env: Env, d: Defaults, ids: seq<string>, attrs: Attrs)
    requires Sound(env)
    ensures Sound(PutChain(env, d, ids, attrs))
  {
    hide Sound;
    EnsureNodesSound(env, ids, d.node);
    PutEdgesSound(EnsureNodes(env, ids, d.node), ids, d.edge + attrs);
  }

  lemma SetGraphAttrsSound(env: Env, attrs: Attrs)
    requires Sound(env)
    ensures Sound(SetGraphAttrs(env, attrs))
  {
    var g, r := env.graph, SetGraphAttrs(env, attrs).graph;
    assert forall x :: HasNode(g, x) ==> HasNode(r, x);
  }

  lemma SimpleStatementSound(s: Stream, env: Env, d: Defaults)
    requires Sound(env) && KindOf(s) != Subgraph && Statement(s, env, d).Some?
    ensures Sound(Statement(s, env, d).value.env)
  {
    hide Sound, OptionalAttrs, ChainTail, Next, PutChain, PutNode, SetGraphAttrs;
    forall attrs ensures Sound(SetGraphAttrs(env, attrs)) { SetGraphAttrsSound(env, attrs); }
    forall id, attrs ensures Sound(PutNode(env, id, attrs)) { PutNodeSound(env, id, attrs); }
    forall ids, attrs ensures Sound(PutChain(env, d, ids, attrs)) { PutChainSound(env, d, ids, attrs); }
  }

  lemma {:induction false} StatementsSound(s: Stream, env: Env, d: Defaults)
    requires Sound(env) && Statements(s, env, d).Some?
    ensures Sound(Statements(s, env, d).value.env)
    decreases Size(s), 2
  {
    hide Sound, AttrStmt, NodeOrEdgeStmt;
    if KindOf(s) != RBrace && KindOf(s) != EOF {
      StatementSound(s, env, d);
      var p := Statement(s, env, d).value;
      StatementsSound(SkipSemicolons(p.rest).value, p.env, p.defaults);
    }
  }

  lemma {:induction false} BlockSound(s: Stream, env: Env, d: Defaults)
    requires Sound(env) && Block(s, env, d).Some?
    ensures Sound(Block(s, env, d).value.env)
    decreases Size(s), 0
  {
    hide Sound, Statements;
    StatementsSound(Expect(s, LBrace).value, env, d);
  }

  lemma {:induction false} StatementSound(s: Stream, env: Env, d: Defaults)
    requires Sound(env) && Statement(s, env, d).Some?
    ensures Sound(Statement(s, env, d).value.env)
    decreases Size(s), 1
  {
    hide Sound, AttrStmt, NodeOrEdgeStmt, Block;
    if KindOf(s) == Subgraph {
      var s2 := GraphName(Expect(s, Subgraph).value).value.1;
      BlockSound(s2, env, d);
    } else {
      SimpleStatementSound(s, env, d);
    }
  }

  /** Every graph the parser returns is well formed: distinct IDs, increasing node
      orders, edges between nodes of the graph, edge orders equal to positions. */
  lemma {:induction false} ParsedIsWellFormed(cs: Charset, src: string)
    requires Parse(cs, src).Some?
    ensures WellFormed(Parse(cs, src).value)
  {
    hide Block, Lex;
    var s1 := Expect(Lex(cs, src), Kind.Digraph).value;
    var (name, s2) := GraphName(s1).value;
    assert Sound(EmptyEnv(name));
    BlockSound(s2, EmptyEnv(name), NO_DEFAULTS);
  }
}
