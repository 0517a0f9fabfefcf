/** Writing tokens down so that the lexer reads the same tokens back. */
module DotPrinter {
  import opened Text
  import opened DotLexer

  /** The character classes keep to the usual: the marks of the language are in
      none of them, a blank is a space and nothing else, words are not spaces. */
  ghost predicate Sane(cs: Charset) {
    && (forall c :: c in "{}[]=;,-\"/#" ==> !cs.space(c) && !cs.letter(c) && !cs.digit(c))
    && (forall c :: cs.letter(c) || cs.digit(c) ==> !cs.space(c))
    && (forall c :: 'a' <= c <= 'z' ==> cs.letter(c))
    && cs.space(' ') && !cs.letter(' ') && !cs.digit(' ') && !cs.space('_')
  }

  function Escape(s: string): string {
    if s == "" then ""
    else (if s[0] == '"' || s[0] == '\\' then ['\\', s[0]] else [s[0]]) + Escape(s[1..])
  }

  /** A token that some text has. */
  predicate Printable(cs: Charset, tok: Token) {
    match tok.kind
    case EOF => false
    case Quoted => true
    case Arrow => tok.text == "->"
    case Ident =>
      && tok.text != "" && KeywordKind(tok.text) == Ident
      && (if IdentStart(cs, tok.text[0]) then forall i :: 0 <= i < |tok.text| ==> IdentPart(cs, tok.text[i])
          else cs.digit(tok.text[0]) && forall i :: 0 <= i < |tok.text| ==> NumberPart(cs, tok.text[i]))
    case Digraph => tok.text == "digraph"
    case Subgraph => tok.text == "subgraph"
    case GraphKeyword => tok.text == "graph"
    case NodeKeyword => tok.text == "node"
    case EdgeKeyword => tok.text == "edge"
    case _ => |tok.text| == 1 && Punctuation(tok.text[0]) == Some(tok.kind)
  }

  predicate IsWord(tok: Token) {
    tok.kind in {Ident, Digraph, Subgraph, GraphKeyword, NodeKeyword, EdgeKeyword}
  }

  /** Strings fully quoted, a blank after every word. */
  function Print(tok: Token): string {
    if tok.kind == Quoted then "\"" + Escape(tok.text) + "\""
    else if IsWord(tok) then tok.text + " "
    else tok.text
  }

  function PrintAll(s: Stream): string {
    match s
    case More(tok, rest) => Print(tok) + PrintAll(rest)
    case _ => ""
  }

  predicate AllPrintable(cs: Charset, s: Stream) {
    match s
    case More(tok, rest) => Printable(cs, tok) && AllPrintable(cs, rest)
    case Broken => false
    case End => true
  }

  lemma ReadClosing(k: string)
    ensures ReadString("\"" + k) == Some(("", k))
  {
    assert ("\"" + k)[1..] == k;
  }

  lemma ReadEscaped(c: char, rest: string)
    requires c == '"' || c == '\\'
    ensures ReadString(['\\', c] + rest) ==
              match ReadString(rest)
              case Some((text, behind)) => Some(([c] + text, behind))
              case None => None
  {
    assert (['\\', c] + rest)[2..] == rest;
  }

  lemma ReadPlain(c: char, rest: string)
    requires c != '"' && c != '\\'
    ensures ReadString([c] + rest) ==
              match ReadString(rest)
              case Some((text, behind)) => Some(([c] + text, behind))
              case None => None
  {
    assert ([c] + rest)[1..] == rest;
  }

  /** readString undoes the quoting of any string. */
  lemma {:induction false} ReadStringUnquotes(s: string, k: string)
    ensures ReadString(Escape(s) + "\"" + k) == Some((s, k))
    decreases |s|
  {
    hide ReadString;
    var t := Escape(s) + "\"" + k;
    if s == "" {
      assert t == "\"" + k;
      ReadClosing(k);
    } else {
      ReadStringUnquotes(s[1..], k);
      var rest := Escape(s[1..]) + "\"" + k;
      assert s == [s[0]] + s[1..];
      if s[0] == '"' || s[0] == '\\' {
        assert t == ['\\', s[0]] + rest;
        ReadEscaped(s[0], rest);
      } else {
        assert t == [s[0]] + rest;
        ReadPlain(s[0], rest);
      }
    }
  }

  lemma BlankDropped(cs: Charset, k: string)
    requires Sane(cs)
    ensures DropBlank(cs, " " + k) == DropBlank(cs, k)
  {
    assert (" " + k)[1..] == k;
    assert DropSpaces(cs, " " + k) == DropSpaces(cs, k);
  }

  lemma LexSkipsBlank(cs: Charset, k: string)
    requires Sane(cs)
    ensures Lex(cs, " " + k) == Lex(cs, k)
  {
    hide ReadToken, DropBlank, Sane;
    BlankDropped(cs, k);
  }

  /** Lexing a text that starts with a token. */
  lemma LexFirst(cs: Charset, t: string, tok: Token, rest: string)
    requires t != "" && DropBlank(cs, t) == t && ReadToken(cs, t) == Some((tok, rest))
    ensures Lex(cs, t) == More(tok, Lex(cs, rest))
  {
    hide ReadToken, DropBlank;
  }

  lemma {:induction false} WordEnds(cs: Charset, w: string, k: string, number: bool)
    requires Sane(cs)
    requires forall i :: 0 <= i < |w| ==> if number then NumberPart(cs, w[i]) else IdentPart(cs, w[i])
    ensures WordLength(cs, w + " " + k, number) == |w|
  {
    var t := w + " " + k;
    var n := WordLength(cs, t, number);
    assert t[|w|] == ' ';
    assert forall i :: 0 <= i < |w| ==> t[i] == w[i];
  }

  /** A text that starts like a token is not blank. */
  lemma NotBlank(cs: Charset, t: string)
    requires t != "" && !cs.space(t[0]) && t[0] != '/' && t[0] != '#'
    ensures DropBlank(cs, t) == t
  {
  }

  lemma WordStart(cs: Charset, w: string)
    requires Sane(cs) && w != "" && (IdentStart(cs, w[0]) || cs.digit(w[0]))
    ensures !cs.space(w[0]) && w[0] != '/' && w[0] != '#'
    ensures Punctuation(w[0]).None? && w[0] != '-' && w[0] != '"'
  {
  }

  lemma KeywordsAreWords(cs: Charset, tok: Token)
    requires Sane(cs) && Printable(cs, tok) && IsWord(tok) && tok.kind != Ident
    ensures tok.text != "" && KeywordKind(tok.text) == tok.kind
    ensures forall i :: 0 <= i < |tok.text| ==> cs.letter(tok.text[i])
  {
  }

  lemma LexWord(cs: Charset, tok: Token, k: string)
    requires Sane(cs) && Printable(cs, tok) && IsWord(tok)
    ensures Lex(cs, Print(tok) + k) == More(tok, Lex(cs, k))
  {
    hide Sane;
    var w := tok.text;
    if tok.kind != Ident {
      KeywordsAreWords(cs, tok);
    }
    hide Printable;
    hide Lex, WordLength, ReadString;
    var number := !IdentStart(cs, w[0]);
    WordStart(cs, w);
    var t := Print(tok) + k;
    assert t == w + " " + k && t[0] == w[0];
    WordEnds(cs, w, k, number);
    assert t[..|w|] == w && t[|w|..] == " " + k;
    NotBlank(cs, t);
    LexFirst(cs, t, tok, " " + k);
    LexSkipsBlank(cs, k);
  }

  lemma LexQuoted(cs: Charset, text: string, k: string)
    requires Sane(cs)
    ensures Lex(cs, Print(Token(Quoted, text)) + k) == More(Token(Quoted, text), Lex(cs, k))
  {
    hide Escape, ReadString, WordLength, Lex;
    var t := Print(Token(Quoted, text)) + k;
    var behind := Escape(text) + "\"" + k;
    assert t == "\"" + behind;
    QuoteIsNoSpace(cs);
    hide Sane;
    ReadStringUnquotes(text, k);
    assert t[0] == '"' && t[1..] == behind;
    NotBlank(cs, t);
    LexFirst(cs, t, Token(Quoted, text), k);
  }

  lemma QuoteIsNoSpace(cs: Charset)
    requires Sane(cs)
    ensures !cs.space('"')
  {
    assert '"' in "{}[]=;,-\"/#";
  }

  lemma MarkStart(cs: Charset, tok: Token, k: string)
    requires Sane(cs) && Printable(cs, tok) && !IsWord(tok) && tok.kind != Quoted
    ensures var t := tok.text + k;
            && Print(tok) == tok.text && tok.text != ""
            && !cs.space(t[0]) && t[0] != '/' && t[0] != '#' && t[0] != '"' && !IdentStart(cs, t[0])
            && (if tok.text == "->" then t[0] == '-' && t[1] == '>'
                else |tok.text| == 1 && Punctuation(t[0]) == Some(tok.kind))
            && (tok.text == "->" ==> tok.kind == Arrow)
  {
    assert (tok.text + k)[0] in "{}[]=;,-\"/#";
  }

  lemma {:induction false} LexMark(cs: Charset, tok: Token, k: string)
    requires Sane(cs) && Printable(cs, tok) && !IsWord(tok)
    ensures Lex(cs, Print(tok) + k) == More(tok, Lex(cs, k))
  {
    hide ReadString, WordLength, KeywordKind, Escape, Sane;
    if tok.kind == Quoted {
      LexQuoted(cs, tok.text, k);
    } else {
      var t := tok.text + k;
      MarkStart(cs, tok, k);
      hide Printable, IdentStart, Lex;
      assert t[..|tok.text|] == tok.text && t[|tok.text|..] == k;
      NotBlank(cs, t);
      assert tok.text == "->" || tok.text == [t[0]];
      assert ReadToken(cs, t) == Some((tok, k));
      LexFirst(cs, t, tok, k);
    }
  }

  /** Lexing a printed token stream gives the stream back. */
  lemma {:induction false} LexPrinted(cs: Charset, s: Stream)
    requires Sane(cs) && AllPrintable(cs, s)
    ensures Lex(cs, PrintAll(s)) == s
  {
    hide Sane, Printable, Print;
    match s {
      case End =>
      case More(tok, rest) =>
        LexPrinted(cs, rest);
        if IsWord(tok) { LexWord(cs, tok, PrintAll(rest)); } else { LexMark(cs, tok, PrintAll(rest)); }
    }
  }

  lemma TokenIsPrintable(cs: Charset, t: string)
    requires Sane(cs) && t != "" && ReadToken(cs, t).Some?
    ensures Printable(cs, ReadToken(cs, t).value.0)
  {
    hide ReadString, Sane, WordLength, KeywordKind;
    if !IdentStart(cs, t[0]) && cs.digit(t[0]) {
      NumberIsNoKeyword(cs, t[..WordLength(cs, t, true)]);
    }
    KeywordTexts(t[..WordLength(cs, t, false)]);
  }

  lemma NumberIsNoKeyword(cs: Charset, w: string)
    requires Sane(cs) && w != "" && !IdentStart(cs, w[0])
    ensures KeywordKind(w) == Ident
  {
  }

  lemma KeywordTexts(w: string)
    ensures match KeywordKind(w)
            case Digraph => w == "digraph"
            case Subgraph => w == "subgraph"
            case GraphKeyword => w == "graph"
            case NodeKeyword => w == "node"
            case EdgeKeyword => w == "edge"
            case k => k == Ident
  {
  }

  /** Every token the lexer delivers can be printed. */
  lemma {:induction false} LexedIsPrintable(cs: Charset, src: string)
    requires Sane(cs) && !EndsBroken(Lex(cs, src))
    ensures AllPrintable(cs, Lex(cs, src))
    decreases |src|
  {
    hide ReadToken, Printable, Sane;
    var t := DropBlank(cs, src);
    if t != "" && ReadToken(cs, t).Some? {
      TokenIsPrintable(cs, t);
      LexedIsPrintable(cs, ReadToken(cs, t).value.1);
    }
  }

  predicate EndsBroken(s: Stream) {
    match s
    case More(_, rest) => EndsBroken(rest)
    case Broken => true
    case End => false
  }

  /** Normalising a source text (comments and layout gone, tokens kept) changes
      none of its tokens. */
  lemma {:induction false} NormalisedLexesAlike(cs: Charset, src: string)
    requires Sane(cs) && !EndsBroken(Lex(cs, src))
    ensures Lex(cs, PrintAll(Lex(cs, src))) == Lex(cs, src)
  {
    LexedIsPrintable(cs, src);
    LexPrinted(cs, Lex(cs, src));
  }
}
