/** What the lexer makes of escapes, comments, words and line breaks, on texts. */
module LexMeaning {
  import opened Text
  import opened DotLexer
  import opened DotPrinter

  /** The text of a string with more in front of it. */
  function Prefixed(p: string, r: Option<(string, string)>): Option<(string, string)> {
    match r
    case Some((text, rest)) => Some((p + text, rest))
    case None => None
  }

  /** A backslash and n is a line break, a backslash and t a tab; in front of a quote
      or a backslash it stands for that; any other pair stays as it is. */
  lemma EscapeMeans(c: char, s: string)
    ensures ReadString(['\\', 'n'] + s) == Prefixed("\n", ReadString(s))
    ensures ReadString(['\\', 't'] + s) == Prefixed("\t", ReadString(s))
    ensures ReadString(['\\', '"'] + s) == Prefixed("\"", ReadString(s))
    ensures ReadString(['\\', '\\'] + s) == Prefixed("\\", ReadString(s))
    ensures c !in "nt\"\\" ==> ReadString(['\\', c] + s) == Prefixed(['\\', c], ReadString(s))
  {
    EscapedPair('n', s);
    EscapedPair('t', s);
    EscapedPair('"', s);
    EscapedPair('\\', s);
    EscapedPair(c, s);
  }

  lemma EscapedPair(c: char, s: string)
    ensures ReadString(['\\', c] + s) == Prefixed(Unescape(c), ReadString(s))
  {
    assert (['\\', c] + s)[2..] == s;
  }

  // ---- comments ----

  lemma {:induction false} LineDropped(c: string, k: string)
    requires forall i :: 0 <= i < |c| ==> c[i] != '\n'
    ensures DropLine(c + "\n" + k) == "\n" + k && DropLine(c) == ""
  {
    var t := c + "\n" + k;
    if c == "" {
      assert t == "\n" + k;
    } else {
      LineDropped(c[1..], k);
      assert t[1..] == c[1..] + "\n" + k;
    }
  }

  lemma {:induction false} BlockDropped(c: string, k: string)
    requires forall i :: 0 <= i < |c| - 1 ==> !(c[i] == '*' && c[i + 1] == '/')
    ensures DropBlock(c + "*/" + k) == k
  {
    var t := c + "*/" + k;
    if c == "" {
      assert t == "*/" + k && t[2..] == k;
    } else {
      assert t[0] == c[0] && t[1] == if |c| > 1 then c[1] else '*';
      assert t[1..] == c[1..] + "*/" + k;
      BlockDropped(c[1..], k);
    }
  }

  /** Lexing looks at the text behind blanks and comments only. */
  lemma SameBehindBlanks(cs: Charset, s: string, t: string)
    requires DropBlank(cs, s) == DropBlank(cs, t)
    ensures Lex(cs, s) == Lex(cs, t)
  {
    hide DropBlank, ReadToken;
  }

  lemma NotSpace(cs: Charset, s: string)
    requires s != "" && !cs.space(s[0])
    ensures DropSpaces(cs, s) == s
  {
  }

  lemma SlashesDropped(cs: Charset, c: string, k: string)
    requires !cs.space('/') && cs.space('\n') && forall i :: 0 <= i < |c| ==> c[i] != '\n'
    ensures DropBlank(cs, "//" + c + "\n" + k) == DropBlank(cs, k)
  {
    var a := "//" + c + "\n" + k;
    LineDropped(c, k);
    NotSpace(cs, a);
    assert a[2..] == c + "\n" + k;
    BreakDropped(cs, k);
    hide DropLine, DropSpaces;
  }

  lemma HashDropped(cs: Charset, c: string, k: string)
    requires !cs.space('#') && cs.space('\n') && forall i :: 0 <= i < |c| ==> c[i] != '\n'
    ensures DropBlank(cs, "#" + c + "\n" + k) == DropBlank(cs, k)
  {
    var a := "#" + c + "\n" + k;
    LineDropped("#" + c, k);
    NotSpace(cs, a);
    BreakDropped(cs, k);
    hide DropLine, DropSpaces;
  }

  /** A comment with two slashes, or with a hash, ends with its line. */
  lemma LineCommentIsSkipped(cs: Charset, c: string, k: string)
    requires Sane(cs) && cs.space('\n') && forall i :: 0 <= i < |c| ==> c[i] != '\n'
    ensures Lex(cs, "//" + c + "\n" + k) == Lex(cs, k)
    ensures Lex(cs, "#" + c + "\n" + k) == Lex(cs, k)
  {
    hide Lex, DropBlank;
    Marks(cs);
    SlashesDropped(cs, c, k);
    HashDropped(cs, c, k);
    SameBehindBlanks(cs, "//" + c + "\n" + k, k);
    SameBehindBlanks(cs, "#" + c + "\n" + k, k);
  }

  lemma BreakDropped(cs: Charset, k: string)
    requires cs.space('\n')
    ensures DropBlank(cs, "\n" + k) == DropBlank(cs, k)
  {
    assert ("\n" + k)[1..] == k;
    assert DropSpaces(cs, "\n" + k) == DropSpaces(cs, k);
  }

  lemma Marks(cs: Charset)
    requires Sane(cs)
    ensures !cs.space('/') && !cs.space('#')
  {
    assert '/' in "{}[]=;,-\"/#" && '#' in "{}[]=;,-\"/#";
  }

  /** A block comment ends with its first star and slash, lines or not. */
  lemma BlockCommentIsSkipped(cs: Charset, c: string, k: string)
    requires Sane(cs) && forall i :: 0 <= i < |c| - 1 ==> !(c[i] == '*' && c[i + 1] == '/')
    ensures Lex(cs, "/*" + c + "*/" + k) == Lex(cs, k)
  {
    Marks(cs);
    hide Sane;
    var a := "/*" + c + "*/" + k;
    BlockDropped(c, k);
    NotSpace(cs, a);
    assert a[2..] == c + "*/" + k;
    SameBehindBlanks(cs, a, k);
  }

  // ---- words ----

  /** A letter or an underscore, then letters, digits, underscores and dots. */
  predicate IsIdentifier(cs: Charset, w: string) {
    && w != "" && (w[0] == '_' || cs.letter(w[0]))
    && forall i :: 0 <= i < |w| ==> w[i] == '_' || w[i] == '.' || cs.letter(w[i]) || cs.digit(w[i])
  }

  /** A digit, then digits and dots. */
  predicate IsNumber(cs: Charset, w: string) {
    w != "" && cs.digit(w[0]) && !cs.letter(w[0]) && w[0] != '_'
    && forall i :: 0 <= i < |w| ==> w[i] == '.' || cs.digit(w[i])
  }

  /** Such a word is one token, a name unless it is one of the five keywords. */
  lemma WordIsToken(cs: Charset, w: string, k: string)
    requires Sane(cs) && (IsIdentifier(cs, w) || IsNumber(cs, w))
    requires w !in ["digraph", "subgraph", "graph", "node", "edge"]
    ensures Lex(cs, w + " " + k) == More(Token(Ident, w), Lex(cs, k))
  {
    NoKeyword(w);
    assert IsNumber(cs, w) ==> forall i :: 0 <= i < |w| ==> NumberPart(cs, w[i]);
    assert IsIdentifier(cs, w) ==> forall i :: 0 <= i < |w| ==> IdentPart(cs, w[i]);
    LexWord(cs, Token(Ident, w), k);
  }

  lemma NoKeyword(w: string)
    requires w !in ["digraph", "subgraph", "graph", "node", "edge"]
    ensures KeywordKind(w) == Ident
  {
  }

  // ---- places ----

  /** Lines and columns count from one, a line break starts the next line. */
  lemma {:induction false} PlaceMeans(s: string, t: string)
    requires forall i :: 0 <= i < |t| ==> t[i] != '\n'
    ensures Place(t) == (1, 1 + |t|)
    ensures Place(s + "\n" + t) == (Place(s).0 + 1, 1 + |t|)
    decreases |t|
  {
    var a := s + "\n" + t;
    if t == "" {
      assert a == s + "\n" && a[..|a| - 1] == s;
    } else {
      PlaceMeans(s, t[..|t| - 1]);
      assert a[..|a| - 1] == s + "\n" + t[..|t| - 1];
    }
  }
}
