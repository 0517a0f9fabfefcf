/** The specification side of the DOT language: programs as trees, what they do,
    and their fully quoted text. */
module DotProgram {
  import opened Text
  import opened Model
  import opened DotLexer
  import opened DotPrinter
  import G = DotGrammar

  type Items = seq<(string, string)>

  datatype Stmt =
    | GraphAttrs(items: Items)
    | NodeDefaults(items: Items)
    | EdgeDefaults(items: Items)
    | Assign(key: string, val: string)
    | NodeStmt(id: string, items: Items)
    | ChainStmt(first: string, second: string, more: seq<string>, items: Items)
    | Subgraph(name: string, body: seq<Stmt>)

  datatype Scope = Scope(env: G.Env, defaults: G.Defaults)

  // ---- meaning ----

  /** Later items win. */
  function Fold(items: Items, acc: G.Attrs): G.Attrs {
    if items == [] then acc else Fold(items[1..], acc[items[0].0 := items[0].1])
  }

  function AttrsOf(items: Items): G.Attrs {
    Fold(items, map[])
  }

  function Exec(s: Stmt, c: Scope): Scope
    decreases s, 0
  {
    match s
    case GraphAttrs(items) => c.(env := G.SetGraphAttrs(c.env, AttrsOf(items)))
    case NodeDefaults(items) => c.(defaults := c.defaults.(node := c.defaults.node + AttrsOf(items)))
    case EdgeDefaults(items) => c.(defaults := c.defaults.(edge := c.defaults.edge + AttrsOf(items)))
    case Assign(key, val) => c.(env := G.SetGraphAttrs(c.env, map[key := val]))
    case NodeStmt(id, items) => c.(env := G.PutNode(c.env, id, c.defaults.node + AttrsOf(items)))
    case ChainStmt(first, second, more, items) =>
      c.(env := G.PutChain(c.env, c.defaults, [first, second] + more, AttrsOf(items)))
    case Subgraph(_, body) => c.(env := ExecAll(body, c).env)
  }

  function ExecAll(body: seq<Stmt>, c: Scope): Scope
    decreases body, 0
  {
    if body == [] then c else ExecAll(body[1..], Exec(body[0], c))
  }

  // ---- tokens, in front of those in k ----

  function Quote(text: string, k: Stream): Stream {
    More(Token(Quoted, text), k)
  }

  function ItemTokens(items: Items, k: Stream): Stream {
    if items == [] then k
    else Quote(items[0].0, More(Token(Equals, "="),
         Quote(items[0].1, More(Token(Comma, ","), ItemTokens(items[1..], k)))))
  }

  function AttrTokens(items: Items, k: Stream): Stream {
    More(Token(LBracket, "["), ItemTokens(items, More(Token(RBracket, "]"), k)))
  }

  function ArrowTokens(ids: seq<string>, k: Stream): Stream {
    if ids == [] then k else More(Token(Arrow, "->"), Quote(ids[0], ArrowTokens(ids[1..], k)))
  }

  function StmtTokens(s: Stmt, k: Stream): Stream
    decreases s, 0
  {
    match s
    case GraphAttrs(items) => More(Token(GraphKeyword, "graph"), AttrTokens(items, k))
    case NodeDefaults(items) => More(Token(NodeKeyword, "node"), AttrTokens(items, k))
    case EdgeDefaults(items) => More(Token(EdgeKeyword, "edge"), AttrTokens(items, k))
    case Assign(key, val) => Quote(key, More(Token(Equals, "="), Quote(val, k)))
    case NodeStmt(id, items) => Quote(id, AttrTokens(items, k))
    case ChainStmt(first, second, more, items) => Quote(first, ArrowTokens([second] + more, AttrTokens(items, k)))
    case Subgraph(name, body) =>
      More(Token(Kind.Subgraph, "subgraph"), Quote(name, BlockTokens(body, k)))
  }

  function BlockTokens(body: seq<Stmt>, k: Stream): Stream
    decreases body, 1
  {
    More(Token(LBrace, "{"), BodyTokens(body, More(Token(RBrace, "}"), k)))
  }

  /** Each statement with its semicolon. */
  function BodyTokens(body: seq<Stmt>, k: Stream): Stream
    decreases body, 0
  {
    if body == [] then k else StmtTokens(body[0], More(Token(Semicolon, ";"), BodyTokens(body[1..], k)))
  }

  function ProgramTokens(name: string, body: seq<Stmt>): Stream {
    More(Token(Kind.Digraph, "digraph"), Quote(name, BlockTokens(body, End)))
  }

  /** The source text of a program. */
  function Source(name: string, body: seq<Stmt>): string {
    PrintAll(ProgramTokens(name, body))
  }

  function Meaning(name: string, body: seq<Stmt>): Graph {
    ExecAll(body, Scope(G.EmptyEnv(name), G.NO_DEFAULTS)).env.graph
  }

  // ---- parsing what was printed ----

  /** What may follow a statement's semicolon. */
  predicate Follows(k: Stream) {
    !k.Broken? && G.KindOf(k) != Semicolon
  }

  lemma {:induction false} ItemsParsed(items: Items, acc: G.Attrs, k: Stream)
    requires !k.Broken?
    ensures G.AttrEntries(ItemTokens(items, More(Token(RBracket, "]"), k)), acc) == Some((Fold(items, acc), k))
    decreases |items|
  {
    if items != [] {
      hide G.AttrEntry;
      var close := More(Token(RBracket, "]"), k);
      ItemsParsed(items[1..], acc[items[0].0 := items[0].1], k);
      ItemsNotBroken(items[1..], close);
      EntryParsed(items[0].0, items[0].1, ItemTokens(items[1..], close));
    }
  }

  lemma ItemsNotBroken(items: Items, k: Stream)
    requires !k.Broken?
    ensures !ItemTokens(items, k).Broken?
  {
  }

  lemma EntryParsed(key: string, val: string, k: Stream)
    requires !k.Broken?
    ensures G.AttrEntry(Quote(key, More(Token(Equals, "="), Quote(val, More(Token(Comma, ","), k)))))
       == Some((key, val, k))
  {
  }

  lemma AttrsParsed(items: Items, k: Stream)
    requires !k.Broken?
    ensures G.OptionalAttrs(AttrTokens(items, k)) == Some((AttrsOf(items), k))
    ensures G.KindOf(AttrTokens(items, k)) == LBracket
  {
    ItemsParsed(items, map[], k);
  }

  lemma {:induction false} ArrowsParsed(ids: seq<string>, acc: seq<string>, k: Stream)
    requires !k.Broken? && G.KindOf(k) != Arrow
    ensures G.ChainTail(ArrowTokens(ids, k), acc) == Some((acc + ids, k))
    decreases |ids|
  {
    if ids == [] {
      assert acc + ids == acc;
    } else {
      ArrowsParsed(ids[1..], acc + [ids[0]], k);
      assert acc + [ids[0]] + ids[1..] == acc + ids;
    }
  }

  lemma {:induction false} StmtParsed(s: Stmt, k: Stream, c: Scope)
    requires G.KindOf(k) == Semicolon
    ensures var r := Exec(s, c);
            G.Statement(StmtTokens(s, k), c.env, c.defaults) == Some(G.Progress(r.env, r.defaults, k))
    decreases s, 1
  {
    match s {
      case Subgraph(name, body) => SubgraphParsed(name, body, k, c);
      case ChainStmt(first, second, more, items) => ChainParsed(s, k, c);
      case _ => PlainParsed(s, k, c);
    }
  }

  lemma {:induction false} PlainParsed(s: Stmt, k: Stream, c: Scope)
    requires G.KindOf(k) == Semicolon && !s.Subgraph? && !s.ChainStmt?
    ensures var r := Exec(s, c);
            G.Statement(StmtTokens(s, k), c.env, c.defaults) == Some(G.Progress(r.env, r.defaults, k))
  {
    hide G.OptionalAttrs, AttrTokens, AttrsOf, G.PutNode, G.SetGraphAttrs;
    if !s.Assign? {
      AttrsParsed(s.items, k);
    }
  }

  lemma ChainParsed(s: Stmt, k: Stream, c: Scope)
    requires G.KindOf(k) == Semicolon && s.ChainStmt?
    ensures var r := Exec(s, c);
            G.Statement(StmtTokens(s, k), c.env, c.defaults) == Some(G.Progress(r.env, r.defaults, k))
  {
    hide G.OptionalAttrs, AttrTokens, AttrsOf, G.PutChain, G.ChainTail;
    AttrsParsed(s.items, k);
    var arrows := ArrowTokens([s.second] + s.more, AttrTokens(s.items, k));
    ArrowsParsed([s.second] + s.more, [s.first], AttrTokens(s.items, k));
    assert [s.first] + ([s.second] + s.more) == [s.first, s.second] + s.more;
    assert G.KindOf(arrows) == Arrow;
  }

  lemma {:induction false} SubgraphParsed(name: string, body: seq<Stmt>, k: Stream, c: Scope)
    requires G.KindOf(k) == Semicolon
    ensures var s := Stmt.Subgraph(name, body);
            var r := Exec(s, c);
            G.Statement(StmtTokens(s, k), c.env, c.defaults) == Some(G.Progress(r.env, r.defaults, k))
    decreases body, 3
  {
    hide ExecAll, BlockTokens, G.Block;
    BlockNotBroken(body, k);
    BlockParsed(body, k, c);
  }

  lemma {:induction false} BlockParsed(body: seq<Stmt>, k: Stream, c: Scope)
    requires !k.Broken?
    ensures var r := ExecAll(body, c);
            G.Block(BlockTokens(body, k), c.env, c.defaults) == Some(G.Progress(r.env, r.defaults, k))
    decreases body, 2
  {
    hide ExecAll, BodyTokens, G.Statements;
    var close := More(Token(RBrace, "}"), k);
    BodyParsed(body, close, c);
    var r := ExecAll(body, c);
    AtClosingBrace(close, r.env, r.defaults);
    BodyNotBroken(body, close);
  }

  lemma BlockNotBroken(body: seq<Stmt>, k: Stream)
    ensures !BlockTokens(body, k).Broken? && G.KindOf(BlockTokens(body, k)) == LBrace
  {
    hide BodyTokens;
  }

  lemma AtClosingBrace(s: Stream, env: G.Env, d: G.Defaults)
    requires G.KindOf(s) == RBrace
    ensures G.Statements(s, env, d) == Some(G.Progress(env, d, s))
  {
  }

  lemma BodyNotBroken(body: seq<Stmt>, k: Stream)
    requires !k.Broken?
    ensures !BodyTokens(body, k).Broken?
    ensures body != [] ==>
      G.KindOf(BodyTokens(body, k)) in {GraphKeyword, NodeKeyword, EdgeKeyword, Quoted, Kind.Subgraph}
  {
  }

  lemma {:induction false} BodyParsed(body: seq<Stmt>, k: Stream, c: Scope)
    requires Follows(k)
    ensures var r := ExecAll(body, c);
            G.Statements(BodyTokens(body, k), c.env, c.defaults) == G.Statements(k, r.env, r.defaults)
    decreases body, 1
  {
    hide Exec, StmtTokens, G.Statement;
    if body != [] {
      var rest := BodyTokens(body[1..], k);
      var behind := More(Token(Semicolon, ";"), rest);
      StmtParsed(body[0], behind, c);
      BodyNotBroken(body, k);
      BodyNotBroken(body[1..], k);
      var r := Exec(body[0], c);
      assert G.SkipSemicolons(rest) == Some(rest);
      assert G.SkipSemicolons(behind) == Some(rest);
      BodyParsed(body[1..], k, r);
    }
  }

  // ---- printing ----

  lemma {:induction false} ItemsPrintable(cs: Charset, items: Items, k: Stream)
    requires AllPrintable(cs, k)
    ensures AllPrintable(cs, ItemTokens(items, k))
    decreases |items|
  {
    if items != [] {
      ItemsPrintable(cs, items[1..], k);
      var value := Quote(items[0].1, More(Token(Comma, ","), ItemTokens(items[1..], k)));
      assert AllPrintable(cs, value);
    }
  }

  lemma {:induction false} ArrowsPrintable(cs: Charset, ids: seq<string>, k: Stream)
    requires AllPrintable(cs, k)
    ensures AllPrintable(cs, ArrowTokens(ids, k))
    decreases |ids|
  {
    if ids != [] {
      ArrowsPrintable(cs, ids[1..], k);
    }
  }

  lemma AttrsPrintable(cs: Charset, items: Items, k: Stream)
    requires AllPrintable(cs, k)
    ensures AllPrintable(cs, AttrTokens(items, k))
  {
    ItemsPrintable(cs, items, More(Token(RBracket, "]"), k));
  }

  lemma {:induction false} StmtPrintable(cs: Charset, s: Stmt, k: Stream)
    requires AllPrintable(cs, k)
    ensures AllPrintable(cs, StmtTokens(s, k))
    decreases s, 0
  {
    hide AttrTokens, ArrowTokens, BlockTokens;
    match s {
      case Assign(key, val) =>
        assert AllPrintable(cs, Quote(val, k));
      case Subgraph(name, body) =>
        BlockPrintable(cs, body, k);
      case ChainStmt(first, second, more, items) =>
        AttrsPrintable(cs, items, k);
        ArrowsPrintable(cs, [second] + more, AttrTokens(items, k));
      case _ => AttrsPrintable(cs, s.items, k);
    }
  }

  lemma {:induction false} BodyPrintable(cs: Charset, body: seq<Stmt>, k: Stream)
    requires AllPrintable(cs, k)
    ensures AllPrintable(cs, BodyTokens(body, k))
    decreases body, 0
  {
    hide StmtTokens;
    if body != [] {
      BodyPrintable(cs, body[1..], k);
      StmtPrintable(cs, body[0], More(Token(Semicolon, ";"), BodyTokens(body[1..], k)));
    }
  }

  lemma {:induction false} BlockPrintable(cs: Charset, body: seq<Stmt>, k: Stream)
    requires AllPrintable(cs, k)
    ensures AllPrintable(cs, BlockTokens(body, k))
    decreases body, 1
  {
    hide BodyTokens;
    BodyPrintable(cs, body, More(Token(RBrace, "}"), k));
  }

  /** The parser computes the meaning: the text of every program, with any strings
      for names, keys and values and subgraphs nested at will, is parsed to the
      graph that the program builds. */
  lemma {:induction false} ProgramParses(cs: Charset, name: string, body: seq<Stmt>)
    requires Sane(cs)
    ensures G.Parse(cs, Source(name, body)) == Some(Meaning(name, body))
  {
    hide Sane, PrintAll, G.Block, ExecAll, BlockTokens;
    BlockPrintable(cs, body, End);
    BlockNotBroken(body, End);
    LexPrinted(cs, ProgramTokens(name, body));
    BlockParsed(body, End, Scope(G.EmptyEnv(name), G.NO_DEFAULTS));
  }
}
