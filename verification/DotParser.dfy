/** internal/attractor/dot/parser.go, `Parser`: recursive descent that pulls one
    token at a time and fills a graph object, proved against DotGrammar. */
module DotParser {
  import opened Text
  import opened Model
  import opened DotLexer
  import G = DotGrammar

  /** The map of maps that parseStmt extends in place. */
  class DefaultAttrs {
    var node: G.Attrs
    var edge: G.Attrs

    constructor (node: G.Attrs, edge: G.Attrs)
      ensures this.node == node && this.edge == edge
    {
      this.node, this.edge := node, edge;
    }

    ghost function Value(): G.Defaults
      reads this
    {
      G.Defaults(node, edge)
    }
  }

  class Parser {
    const lexer: Lexer
    var cur: Placed
    var nodeOrder: nat
    var edgeOrder: nat

    ghost predicate Valid()
      reads this, lexer
    {
      lexer.Valid() && (cur.tok.kind == EOF ==> lexer.Rest() == "")
    }

    /** The current token and all that follow. */
    ghost function Tokens(): Stream
      requires Valid()
      reads this, lexer
    {
      if cur.tok.kind == EOF then End else More(cur.tok, Lex(lexer.cs, lexer.Rest()))
    }

    ghost function EnvOf(g: MutableGraph): G.Env
      reads this, g
    {
      G.Env(g.Value(), nodeOrder, edgeOrder)
    }

    /** How far and with what result a parsing method has got. */
    ghost predicate Reached(ok: bool, r: Option<G.Progress>, g: MutableGraph, d: DefaultAttrs)
      reads this, lexer, g, d
    {
      match r
      case None => !ok
      case Some(p) => ok && Valid() && g.Valid() && EnvOf(g) == p.env && d.Value() == p.defaults && Tokens() == p.rest
    }

    constructor (cs: Charset, src: string)
      ensures fresh(lexer) && lexer.Valid() && lexer.Rest() == src && lexer.cs == cs
      ensures nodeOrder == edgeOrder == 0
    {
      lexer := new Lexer(cs, src);
      cur, nodeOrder, edgeOrder := Placed(Token(EOF, ""), 1, 1), 0, 0;
    }

    /** Pulls the next token into `cur`. */
    method Pull() returns (ok: bool)
      requires lexer.Valid()
      modifies this`cur, lexer
      ensures lexer.Valid()
      ensures ok <==> !Lex(lexer.cs, old(lexer.Rest())).Broken?
      ensures ok ==> Valid() && Tokens() == Lex(lexer.cs, old(lexer.Rest()))
    {
      var r := lexer.NextToken();
      match r {
        case Err(_) =>
          return false;
        case Ok(p) =>
          cur := p;
          return true;
      }
    }

    method Advance() returns (ok: bool)
      requires Valid()
      modifies this`cur, lexer
      ensures match G.Next(old(Tokens()))
              case None => !ok
              case Some(s) => ok && Valid() && Tokens() == s
    {
      ok := Pull();
    }

    method Expect(k: Kind) returns (ok: bool)
      requires Valid() && k != EOF
      modifies this`cur, lexer
      ensures match G.Expect(old(Tokens()), k)
              case None => !ok
              case Some(s) => ok && Valid() && Tokens() == s
    {
      if cur.tok.kind != k {
        return false;
      }
      ok := Advance();
    }

    method ParseAttrList() returns (r: Option<G.Attrs>)
      requires Valid()
      modifies this`cur, lexer
      ensures match G.AttrList(old(Tokens()))
              case None => r == None
              case Some((attrs, s)) => r == Some(attrs) && Valid() && Tokens() == s
    {
      hide Lex, G.Next, G.AttrEntry, G.Expect;
      ghost var whole := G.AttrList(Tokens());
      var ok := Expect(LBracket);
      if !ok {
        return None;
      }
      var attrs: G.Attrs := map[];
      while cur.tok.kind != RBracket && cur.tok.kind != EOF
        invariant Valid() && G.AttrEntries(Tokens(), attrs) == whole
        decreases G.Size(Tokens())
      {
        var entry := ParseAttrEntry();
        if entry.None? {
          return None;
        }
        attrs := attrs[entry.value.0 := entry.value.1];
      }
      ok := Expect(RBracket);
      if !ok {
        return None;
      }
      return Some(attrs);
    }

    method ParseAttrEntry() returns (r: Option<(string, string)>)
      requires Valid()
      modifies this`cur, lexer
      ensures match G.AttrEntry(old(Tokens()))
              case None => r == None
              case Some((key, val, s)) => r == Some((key, val)) && Valid() && Tokens() == s
    {
      hide Lex, G.Next, G.Expect, G.Name;
      var key := ParseName();
      if key.None? {
        return None;
      }
      var ok := Expect(Equals);
      if !ok {
        return None;
      }
      var val := ParseName();
      if val.None? {
        return None;
      }
      if cur.tok.kind == Comma || cur.tok.kind == Semicolon {
        ok := Advance();
        if !ok {
          return None;
        }
      }
      return Some((key.value, val.value));
    }

    method ParseName() returns (r: Option<string>)
      requires Valid()
      modifies this`cur, lexer
      ensures match G.Name(old(Tokens()))
              case None => r == None
              case Some((text, s)) => r == Some(text) && Valid() && Tokens() == s
    {
      hide Lex, G.Next;
      if cur.tok.kind != Ident && cur.tok.kind != Quoted {
        return None;
      }
      var text := cur.tok.text;
      var ok := Advance();
      return if ok then Some(text) else None;
    }

    method OptionalAttrs() returns (r: Option<G.Attrs>)
      requires Valid()
      modifies this`cur, lexer
      ensures match G.OptionalAttrs(old(Tokens()))
              case None => r == None
              case Some((attrs, s)) => r == Some(attrs) && Valid() && Tokens() == s
    {
      if cur.tok.kind == LBracket {
        r := ParseAttrList();
      } else {
        r := Some(map[]);
      }
    }

    /** The statements `graph [...]`, `node [...]` and `edge [...]`. */
    method ParseAttrStmt(g: MutableGraph, d: DefaultAttrs) returns (ok: bool)
      requires Valid() && g.Valid() && cur.tok.kind in {GraphKeyword, NodeKeyword, EdgeKeyword}
      modifies this`cur, lexer, g, d
      ensures Reached(ok, old(G.AttrStmt(Tokens(), EnvOf(g), d.Value())), g, d)
    {
      hide Lex, G.AttrList, G.OptionalAttrs, G.Next, G.SetGraphAttrs, MutableGraph.Valid, Lexer.Valid;
      var keyword := cur.tok.kind;
      ok := Advance();
      if !ok {
        return;
      }
      var attrs := OptionalAttrs();
      if attrs.None? {
        return false;
      }
      SetAttrs(keyword, attrs.value, g, d);
    }

    /** Into the graph, the node defaults or the edge defaults. */
    method SetAttrs(keyword: Kind, attrs: G.Attrs, g: MutableGraph, d: DefaultAttrs)
      requires g.Valid() && keyword in {GraphKeyword, NodeKeyword, EdgeKeyword}
      modifies g, d
      ensures g.Valid()
      ensures EnvOf(g) == if keyword == GraphKeyword then G.SetGraphAttrs(old(EnvOf(g)), attrs) else old(EnvOf(g))
      ensures d.Value() == match keyword
                           case NodeKeyword => old(d.Value()).(node := old(d.node) + attrs)
                           case EdgeKeyword => old(d.Value()).(edge := old(d.edge) + attrs)
                           case _ => old(d.Value())
    {
      hide MutableGraph.Valid;
      if keyword == GraphKeyword {
        g.MergeAttrs(attrs);
      } else if keyword == NodeKeyword {
        d.node := d.node + attrs;
      } else {
        d.edge := d.edge + attrs;
      }
    }

    method ParseNodeOrEdgeStmt(g: MutableGraph, d: DefaultAttrs) returns (ok: bool)
      requires Valid() && g.Valid() && G.IsName(cur.tok.kind)
      modifies this, lexer, g, d
      ensures Reached(ok, old(G.NodeOrEdgeStmt(Tokens(), EnvOf(g), d.Value())), g, d)
    {
      hide G.EdgeStmt, G.AssignStmt, G.NodeStmt, Lex;
      var id := cur.tok.text;
      ok := Advance();
      if !ok {
        return;
      }
      if cur.tok.kind == Equals {
        ok := ParseAssign(g, id, d);
      } else if cur.tok.kind == Arrow {
        ok := ParseEdgeStmt(g, id, d);
      } else {
        ok := ParseNode(g, id, d);
      }
    }

    /** A graph attribute: key = value. */
    method ParseAssign(g: MutableGraph, key: string, d: DefaultAttrs) returns (ok: bool)
      requires Valid() && g.Valid() && cur.tok.kind == Equals
      modifies this`cur, lexer, g
      ensures Reached(ok, old(G.AssignStmt(Tokens(), key, EnvOf(g), d.Value())), g, d)
    {
      hide Lex;
      ok := Advance();
      if !ok {
        return;
      }
      if cur.tok.kind != Ident && cur.tok.kind != Quoted {
        return false;
      }
      g.MergeAttrs(map[key := cur.tok.text]);
      ok := Advance();
    }

    method ParseNode(g: MutableGraph, id: string, d: DefaultAttrs) returns (ok: bool)
      requires Valid() && g.Valid()
      modifies this`cur, this`nodeOrder, lexer, g
      ensures Reached(ok, old(G.NodeStmt(Tokens(), id, EnvOf(g), d.Value())), g, d)
    {
      hide Lex, G.AttrList, G.OptionalAttrs, MutableGraph.Valid, Lexer.Valid, WithNode, G.Next;
      var nodeAttrs := OptionalAttrs();
      if nodeAttrs.None? {
        return false;
      }
      g.AddNode(Node(id, d.node + nodeAttrs.value, nodeOrder));
      nodeOrder := nodeOrder + 1;
      return true;
    }

    /** The chain behind its first node: A -> B -> C. */
    method ParseChain(firstID: string) returns (r: Option<seq<string>>)
      requires Valid()
      modifies this`cur, lexer
      ensures match G.ChainTail(old(Tokens()), [firstID])
              case None => r == None
              case Some((ids, s)) => r == Some(ids) && Valid() && Tokens() == s
    {
      ghost var whole := G.ChainTail(Tokens(), [firstID]);
      var ids := [firstID];
      while cur.tok.kind == Arrow
        invariant Valid() && G.ChainTail(Tokens(), ids) == whole
        decreases G.Size(Tokens())
      {
        var ok := Advance();
        if !ok {
          return None;
        }
        if cur.tok.kind != Ident && cur.tok.kind != Quoted {
          return None;
        }
        ids := ids + [cur.tok.text];
        ok := Advance();
        if !ok {
          return None;
        }
      }
      return Some(ids);
    }

    method ParseEdgeStmt(g: MutableGraph, firstID: string, d: DefaultAttrs) returns (ok: bool)
      requires Valid() && g.Valid()
      modifies this, lexer, g
      ensures Reached(ok, old(G.EdgeStmt(Tokens(), firstID, EnvOf(g), d.Value())), g, d)
    {
      hide Lex, G.AttrList, G.ChainTail, G.OptionalAttrs, G.PutChain;
      var chain := ParseChain(firstID);
      if chain.None? {
        return false;
      }
      var edgeAttrs := OptionalAttrs();
      if edgeAttrs.None? {
        return false;
      }
      AddChain(g, chain.value, d, edgeAttrs.value);
      return true;
    }

    method AddChain(g: MutableGraph, ids: seq<string>, d: DefaultAttrs, explicit: G.Attrs)
      requires g.Valid() && |ids| >= 1
      modifies this`nodeOrder, this`edgeOrder, g
      ensures g.Valid() && EnvOf(g) == G.PutChain(old(EnvOf(g)), d.Value(), ids, explicit)
    {
      hide MutableGraph.Valid, G.EnsureNodes, G.PutEdges;
      AddMissingNodes(g, ids, d.node);
      AddChainEdges(g, ids, d.edge + explicit);
    }

    /** Nodes that are already in the graph keep their attributes and orders. */
    method AddMissingNodes(g: MutableGraph, ids: seq<string>, attrs: G.Attrs)
      requires g.Valid()
      modifies this`nodeOrder, g
      ensures g.Valid() && EnvOf(g) == G.EnsureNodes(old(EnvOf(g)), ids, attrs)
    {
      hide MutableGraph.Valid, G.EnsureNode;
      for i := 0 to |ids|
        invariant g.Valid() && EnvOf(g) == G.EnsureNodes(old(EnvOf(g)), ids[..i], attrs)
      {
        assert ids[..i + 1][..i] == ids[..i];
        AddIfMissing(g, ids[i], attrs);
      }
      assert ids[..|ids|] == ids;
    }

    method AddIfMissing(g: MutableGraph, id: string, attrs: G.Attrs)
      requires g.Valid()
      modifies this`nodeOrder, g
      ensures g.Valid() && EnvOf(g) == G.EnsureNode(old(EnvOf(g)), id, attrs)
    {
      hide MutableGraph.Valid, WithNode;
      if !g.HasID(id) {
        g.AddNode(Node(id, attrs, nodeOrder));
        nodeOrder := nodeOrder + 1;
      }
    }

    /** Every edge of a chain gets the same attributes, and its own order. */
    method AddChainEdges(g: MutableGraph, ids: seq<string>, attrs: G.Attrs)
      requires g.Valid() && |ids| >= 1
      modifies this`edgeOrder, g
      ensures g.Valid() && EnvOf(g) == G.PutEdges(old(EnvOf(g)), ids, attrs)
    {
      hide MutableGraph.Valid;
      for i := 0 to |ids| - 1
        invariant g.Valid() && EnvOf(g) == G.PutEdges(old(EnvOf(g)), ids[..i + 1], attrs)
      {
        assert ids[..i + 2][..i + 1] == ids[..i + 1];
        g.AddEdge(Edge(ids[i], ids[i + 1], attrs, edgeOrder));
        edgeOrder := edgeOrder + 1;
      }
      assert ids[..|ids|] == ids;
    }

    /** The name of a graph, which may be missing, or of a subgraph, which is skipped. */
    method OptionalName() returns (name: Option<string>)
      requires Valid()
      modifies this`cur, lexer
      ensures match G.GraphName(old(Tokens()))
              case None => name == None
              case Some((text, s)) => name == Some(text) && Valid() && Tokens() == s
    {
      if cur.tok.kind != Ident && cur.tok.kind != Quoted {
        return Some("");
      }
      var text := cur.tok.text;
      var ok := Advance();
      return if ok then Some(text) else None;
    }

    method ParseSubgraph(g: MutableGraph, parent: DefaultAttrs) returns (ok: bool)
      requires Valid() && g.Valid()
      modifies this, lexer, g
      ensures Reached(ok, old(G.SubgraphStmt(Tokens(), EnvOf(g), parent.Value())), g, parent)
      decreases G.Size(Tokens()), 0
    {
      hide G.Block, G.GraphName, Lex, G.Next, G.Expect, MutableGraph.Valid, Lexer.Valid, Valid, Tokens;
      ok := Expect(Subgraph);
      if !ok {
        return;
      }
      var name := OptionalName();
      if name.None? {
        return false;
      }
      var child := new DefaultAttrs(parent.node, parent.edge);
      ok := ParseBlock(g, child);
    }

    method ParseBlock(g: MutableGraph, d: DefaultAttrs) returns (ok: bool)
      requires Valid() && g.Valid()
      modifies this, lexer, g, d
      ensures Reached(ok, old(G.Block(Tokens(), EnvOf(g), d.Value())), g, d)
      decreases G.Size(Tokens()), 0
    {
      hide G.Statements, Lex, G.Next, G.Expect, MutableGraph.Valid, Lexer.Valid, Valid, Tokens;
      ok := Expect(LBrace);
      if !ok {
        return;
      }
      ok := ParseStmtList(g, d);
      if !ok {
        return;
      }
      ok := Expect(RBrace);
    }

    method ParseStmt(g: MutableGraph, d: DefaultAttrs) returns (ok: bool)
      requires Valid() && g.Valid()
      modifies this, lexer, g, d
      ensures Reached(ok, old(G.Statement(Tokens(), EnvOf(g), d.Value())), g, d)
      decreases G.Size(Tokens()), 1
    {
      hide G.AttrStmt, G.NodeOrEdgeStmt, G.SubgraphStmt, Lex;
      match cur.tok.kind {
        case GraphKeyword | NodeKeyword | EdgeKeyword =>
          ok := ParseAttrStmt(g, d);
        case Subgraph =>
          ok := ParseSubgraph(g, d);
        case Ident | Quoted =>
          ok := ParseNodeOrEdgeStmt(g, d);
        case _ =>
          ok := false;
      }
    }

    method SkipSemicolons() returns (ok: bool)
      requires Valid()
      modifies this`cur, lexer
      ensures match G.SkipSemicolons(old(Tokens()))
              case None => !ok
              case Some(s) => ok && Valid() && Tokens() == s
    {
      ok := true;
      while cur.tok.kind == Semicolon
        invariant ok && Valid() && G.SkipSemicolons(Tokens()) == G.SkipSemicolons(old(Tokens()))
        decreases G.Size(Tokens())
      {
        ok := Advance();
        if !ok {
          return;
        }
      }
    }

    method ParseStmtList(g: MutableGraph, d: DefaultAttrs) returns (ok: bool)
      requires Valid() && g.Valid()
      modifies this, lexer, g, d
      ensures Reached(ok, old(G.Statements(Tokens(), EnvOf(g), d.Value())), g, d)
      decreases G.Size(Tokens()), 2
    {
      hide G.Statement, Lex;
      ok := true;
      while cur.tok.kind != RBrace && cur.tok.kind != EOF
        invariant ok && Valid() && g.Valid() && G.Size(Tokens()) <= old(G.Size(Tokens()))
        invariant G.Statements(Tokens(), EnvOf(g), d.Value()) == old(G.Statements(Tokens(), EnvOf(g), d.Value()))
        decreases G.Size(Tokens())
      {
        ok := ParseStmt(g, d);
        if !ok {
          return;
        }
        ok := SkipSemicolons();
        if !ok {
          return;
        }
      }
    }

    method ParseDigraph() returns (r: Option<MutableGraph>)
      requires Valid() && nodeOrder == edgeOrder == 0
      modifies this, lexer
      ensures match G.Digraph(old(Tokens()))
              case None => r == None
              case Some(graph) => r.Some? && fresh(r.value) && r.value.Valid() && r.value.Value() == graph
    {
      hide G.Block, G.GraphName, Lex, G.Next, G.Expect, MutableGraph.Valid, Lexer.Valid, Valid, Tokens;
      var ok := Expect(Digraph);
      if !ok {
        return None;
      }
      var name := OptionalName();
      if name.None? {
        return None;
      }
      var g := new MutableGraph(name.value);
      var d := new DefaultAttrs(map[], map[]);
      ok := ParseBlock(g, d);
      return if ok then Some(g) else None;
    }
  }

  /** Parse: the graph object of a text, well formed, or none on an error. */
  method Parse(cs: Charset, src: string) returns (r: Option<MutableGraph>)
    ensures match G.Parse(cs, src)
            case None => r == None
            case Some(graph) =>
              r.Some? && fresh(r.value) && r.value.Valid() && r.value.Value() == graph && WellFormed(graph)
  {
    hide G.Digraph, WellFormed;
    var p := new Parser(cs, src);
    var ok := p.Pull();
    if !ok {
      return None;
    }
    r := p.ParseDigraph();
    if r.Some? {
      G.ParsedIsWellFormed(cs, src);
    }
  }
}
