/** The forms of the language that the printer does not use: names without quotes,
    and what may be left out. */
module DotForms {
  import opened Text
  import opened DotLexer
  import opened DotGrammar

  // ---- names with and without quotes ----

  /** Every string turned into an identifier of the same text. */
  function Plain(s: Stream): Stream {
    match s
    case More(tok, rest) => More(if tok.kind == Quoted then Token(Ident, tok.text) else tok, Plain(rest))
    case _ => s
  }

  function PlainKind(k: Kind): Kind {
    if k == Quoted then Ident else k
  }

  function PlainRest(r: Option<Progress>): Option<Progress> {
    match r
    case Some(p) => Some(p.(rest := Plain(p.rest)))
    case None => None
  }

  function PlainTail<T>(r: Option<(T, Stream)>): Option<(T, Stream)> {
    match r
    case Some((x, s)) => Some((x, Plain(s)))
    case None => None
  }

  function PlainStream(r: Option<Stream>): Option<Stream> {
    match r
    case Some(s) => Some(Plain(s))
    case None => None
  }

  lemma PlainHead(s: Stream)
    ensures KindOf(Plain(s)) == PlainKind(KindOf(s)) && TextOf(Plain(s)) == TextOf(s)
    ensures Next(Plain(s)) == PlainStream(Next(s))
    ensures IsName(KindOf(Plain(s))) <==> IsName(KindOf(s))
    ensures Plain(s).More? <==> s.More?
  {
  }

  lemma PlainExpect(s: Stream, k: Kind)
    requires k != EOF && k != Ident && k != Quoted
    ensures Expect(Plain(s), k) == PlainStream(Expect(s, k))
  {
    hide Plain, Next;
    PlainHead(s);
  }

  lemma PlainName(s: Stream)
    ensures Name(Plain(s)) == PlainTail(Name(s))
    ensures GraphName(Plain(s)) == PlainTail(GraphName(s))
    ensures SkipSeparator(Plain(s)) == PlainStream(SkipSeparator(s))
  {
    hide Plain, Next;
    PlainHead(s);
  }

  lemma PlainEntry(s: Stream)
    ensures AttrEntry(Plain(s)) ==
              match AttrEntry(s)
              case Some((k, v, rest)) => Some((k, v, Plain(rest)))
              case None => None
  {
    hide Plain, Name, Expect, SkipSeparator;
    PlainName(s);
    if n :| Name(s) == Some(n) {
      PlainExpect(n.1, Equals);
      if t :| Expect(n.1, Equals) == Some(t) {
        PlainName(t);
        if m :| Name(t) == Some(m) {
          PlainName(m.1);
        }
      }
    }
  }

  lemma {:induction false} PlainEntries(s: Stream, acc: Attrs)
    ensures AttrEntries(Plain(s), acc) == PlainTail(AttrEntries(s, acc))
    decreases Size(s)
  {
    hide Plain, AttrEntry, Expect;
    PlainHead(s);
    PlainExpect(s, RBracket);
    PlainEntry(s);
    if KindOf(s) != RBracket && KindOf(s) != EOF {
      if e :| AttrEntry(s) == Some(e) {
        PlainEntries(e.2, acc[e.0 := e.1]);
      }
    }
  }

  lemma PlainAttrs(s: Stream)
    ensures OptionalAttrs(Plain(s)) == PlainTail(OptionalAttrs(s))
  {
    hide Plain, AttrEntries, Expect;
    PlainHead(s);
    PlainExpect(s, LBracket);
    if t :| Expect(s, LBracket) == Some(t) {
      PlainEntries(t, map[]);
    }
  }

  lemma {:induction false} PlainChain(s: Stream, ids: seq<string>)
    ensures ChainTail(Plain(s), ids) == PlainTail(ChainTail(s, ids))
    decreases Size(s)
  {
    hide Plain, Next;
    PlainHead(s);
    if KindOf(s) == Arrow {
      if t :| Next(s) == Some(t) {
        PlainHead(t);
        if u :| Next(t) == Some(u) {
          assert s.More? && Size(t) < Size(s);
          PlainChain(u, ids + [TextOf(t)]);
        }
      }
    }
  }

  lemma PlainAttrStmt(s: Stream, env: Env, d: Defaults)
    requires KindOf(s) in {GraphKeyword, NodeKeyword, EdgeKeyword}
    ensures KindOf(Plain(s)) == KindOf(s) && AttrStmt(Plain(s), env, d) == PlainRest(AttrStmt(s, env, d))
  {
    hide Plain, Next, OptionalAttrs, SetGraphAttrs;
    PlainHead(s);
    if t :| Next(s) == Some(t) {
      PlainAttrs(t);
    }
  }

  lemma PlainAssign(s: Stream, key: string, env: Env, d: Defaults)
    requires s.More?
    ensures Plain(s).More? && AssignStmt(Plain(s), key, env, d) == PlainRest(AssignStmt(s, key, env, d))
  {
    hide Plain, Next, SetGraphAttrs;
    PlainHead(s);
    if t :| Next(s) == Some(t) {
      PlainHead(t);
    }
  }

  lemma PlainEdgeOrNode(s: Stream, id: string, env: Env, d: Defaults)
    ensures EdgeStmt(Plain(s), id, env, d) == PlainRest(EdgeStmt(s, id, env, d))
    ensures NodeStmt(Plain(s), id, env, d) == PlainRest(NodeStmt(s, id, env, d))
  {
    hide Plain, OptionalAttrs, ChainTail, PutChain, PutNode;
    PlainAttrs(s);
    PlainChain(s, [id]);
    if c :| ChainTail(s, [id]) == Some(c) {
      PlainAttrs(c.1);
    }
  }

  lemma PlainNodeOrEdge(s: Stream, env: Env, d: Defaults)
    requires IsName(KindOf(s))
    ensures IsName(KindOf(Plain(s))) && NodeOrEdgeStmt(Plain(s), env, d) == PlainRest(NodeOrEdgeStmt(s, env, d))
  {
    hide Plain, Next, AssignStmt, EdgeStmt, NodeStmt;
    PlainHead(s);
    if t :| Next(s) == Some(t) {
      PlainHead(t);
      if KindOf(t) == Equals {
        PlainAssign(t, TextOf(s), env, d);
      }
      PlainEdgeOrNode(t, TextOf(s), env, d);
    }
  }

  lemma PlainSimple(s: Stream, env: Env, d: Defaults)
    requires KindOf(s) != Subgraph
    ensures Statement(Plain(s), env, d) == PlainRest(Statement(s, env, d))
  {
    hide Plain, AttrStmt, NodeOrEdgeStmt, SubgraphStmt;
    PlainHead(s);
    if KindOf(s) in {GraphKeyword, NodeKeyword, EdgeKeyword} {
      PlainAttrStmt(s, env, d);
    } else if IsName(KindOf(s)) {
      PlainNodeOrEdge(s, env, d);
    }
  }

  lemma {:induction false} PlainSemicolons(s: Stream)
    ensures SkipSemicolons(Plain(s)) == PlainStream(SkipSemicolons(s))
    decreases Size(s)
  {
    hide Plain, Next;
    PlainHead(s);
    if KindOf(s) == Semicolon {
      if t :| Next(s) == Some(t) {
        PlainSemicolons(t);
      }
    }
  }

  lemma {:induction false} PlainStatements(s: Stream, env: Env, d: Defaults)
    ensures Statements(Plain(s), env, d) == PlainRest(Statements(s, env, d))
    decreases Size(s), 2
  {
    hide Plain, Statement, SkipSemicolons;
    PlainHead(s);
    if KindOf(s) != RBrace && KindOf(s) != EOF {
      PlainStatement(s, env, d);
      if p :| Statement(s, env, d) == Some(p) {
        PlainSemicolons(p.rest);
        if t :| SkipSemicolons(p.rest) == Some(t) {
          PlainStatements(t, p.env, p.defaults);
        }
      }
    }
  }

  lemma {:induction false} PlainStatement(s: Stream, env: Env, d: Defaults)
    ensures Statement(Plain(s), env, d) == PlainRest(Statement(s, env, d))
    decreases Size(s), 1
  {
    hide Plain, SubgraphStmt, AttrStmt, NodeOrEdgeStmt;
    PlainHead(s);
    if KindOf(s) == Subgraph {
      PlainSubgraph(s, env, d);
    } else {
      PlainSimple(s, env, d);
    }
  }

  lemma {:induction false} PlainSubgraph(s: Stream, env: Env, d: Defaults)
    ensures SubgraphStmt(Plain(s), env, d) == PlainRest(SubgraphStmt(s, env, d))
    decreases Size(s), 0
  {
    hide Plain, Block, GraphName, Expect;
    PlainExpect(s, Subgraph);
    if t :| Expect(s, Subgraph) == Some(t) {
      PlainName(t);
      if n :| GraphName(t) == Some(n) {
        PlainBlock(n.1, env, d);
      }
    }
  }

  lemma {:induction false} PlainBlock(s: Stream, env: Env, d: Defaults)
    ensures Block(Plain(s), env, d) == PlainRest(Block(s, env, d))
    decreases Size(s), 0
  {
    hide Plain, Statements, Expect;
    PlainExpect(s, LBrace);
    if t :| Expect(s, LBrace) == Some(t) {
      PlainStatements(t, env, d);
      if p :| Statements(t, env, d) == Some(p) {
        PlainExpect(p.rest, RBrace);
      }
    }
  }

  /** Names, keys and values may be identifiers or strings: only their text counts. */
  lemma QuotesDoNotMatter(s: Stream, t: Stream)
    requires Plain(s) == Plain(t)
    ensures DotGrammar.Digraph(s) == DotGrammar.Digraph(t)
  {
    PlainDigraph(s);
    PlainDigraph(t);
  }

  lemma PlainDigraph(s: Stream)
    ensures DotGrammar.Digraph(Plain(s)) == DotGrammar.Digraph(s)
  {
    hide Plain, Block, GraphName, Expect;
    PlainExpect(s, Kind.Digraph);
    if t :| Expect(s, Kind.Digraph) == Some(t) {
      PlainName(t);
      if n :| GraphName(t) == Some(n) {
        PlainBlock(n.1, EmptyEnv(n.0), NO_DEFAULTS);
      }
    }
  }

  // ---- what may be left out ----

  function Mark(k: Kind, text: string, s: Stream): Stream {
    More(Token(k, text), s)
  }

  /** A graph without a name is one with the empty name. */
  lemma GraphMayBeNameless(s: Stream, text: string)
    requires KindOf(s) == LBrace
    ensures DotGrammar.Digraph(Mark(Kind.Digraph, text, s))
         == DotGrammar.Digraph(Mark(Kind.Digraph, text, Mark(Quoted, "", s)))
  {
    hide Block;
  }

  /** A subgraph may have a name, which does not matter. */
  lemma SubgraphNameDoesNotMatter(s: Stream, text: string, name: string, env: Env, d: Defaults)
    requires KindOf(s) == LBrace
    ensures SubgraphStmt(Mark(Kind.Subgraph, text, Mark(Quoted, name, s)), env, d)
         == SubgraphStmt(Mark(Kind.Subgraph, text, s), env, d)
  {
    hide Block;
  }

  /** No attribute list is an empty one. */
  lemma AttrsMayBeMissing(s: Stream)
    requires !s.Broken? && KindOf(s) != LBracket
    ensures OptionalAttrs(s) == Some((map[], s)) == OptionalAttrs(Mark(LBracket, "[", Mark(RBracket, "]", s)))
  {
  }

  function Entry(key: string, val: string, k: Stream): Stream {
    Mark(Quoted, key, Mark(Equals, "=", Mark(Quoted, val, k)))
  }

  lemma EntryIsRead(key: string, val: string, k: Stream)
    requires !k.Broken?
    ensures AttrEntry(Entry(key, val, k)) ==
              match SkipSeparator(k)
              case Some(rest) => Some((key, val, rest))
              case None => None
  {
    hide SkipSeparator;
    assert Name(Entry(key, val, k)) == Some((key, Mark(Equals, "=", Mark(Quoted, val, k))));
    assert Expect(Mark(Equals, "=", Mark(Quoted, val, k)), Equals) == Some(Mark(Quoted, val, k));
    assert Name(Mark(Quoted, val, k)) == Some((val, k));
  }

  /** Behind an entry there may be a comma, a semicolon or nothing. */
  lemma SeparatorMayBeMissing(key: string, val: string, s: Stream)
    requires !s.Broken? && KindOf(s) != Comma && KindOf(s) != Semicolon
    ensures AttrEntry(Entry(key, val, s)) == Some((key, val, s))
    ensures AttrEntry(Entry(key, val, Mark(Comma, ",", s))) == Some((key, val, s))
    ensures AttrEntry(Entry(key, val, Mark(Semicolon, ";", s))) == Some((key, val, s))
  {
    hide AttrEntry, Entry;
    EntryIsRead(key, val, s);
    EntryIsRead(key, val, Mark(Comma, ",", s));
    EntryIsRead(key, val, Mark(Semicolon, ";", s));
  }

  /** Behind a statement any number of semicolons may stand, or none. */
  lemma SemicolonsMayBeMissing(s: Stream)
    requires !s.Broken?
    ensures KindOf(s) != Semicolon ==> SkipSemicolons(s) == Some(s)
    ensures SkipSemicolons(Mark(Semicolon, ";", s)) == SkipSemicolons(s)
  {
  }
}
