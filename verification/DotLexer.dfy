/** internal/attractor/dot/lexer.go. `Lex` says which tokens a text has; `Lexer`
    is the object that walks over the text. */
module DotLexer {
  import opened Text

  datatype Kind =
    | EOF | Digraph | Subgraph | LBrace | RBrace | LBracket | RBracket | Arrow
    | Equals | Semicolon | Comma | Ident | Quoted | GraphKeyword | NodeKeyword | EdgeKeyword

  datatype Token = Token(kind: Kind, text: string)

  /** The tokens of a text, lazily: an error ends the stream where it occurs. */
  datatype Stream = End | Broken | More(tok: Token, rest: Stream)

  // ---- blanks and comments ----

  function DropSpaces(cs: Charset, s: string): (t: string)
    ensures |t| <= |s|
  {
    if s != "" && cs.space(s[0]) then DropSpaces(cs, s[1..]) else s
  }

  function DropLine(s: string): (t: string)
    ensures |t| <= |s|
    ensures s != "" && s[0] != '\n' ==> |t| < |s|
  {
    if s != "" && s[0] != '\n' then DropLine(s[1..]) else s
  }

  /** The text after the closing star and slash, or nothing. */
  function DropBlock(s: string): (t: string)
    ensures |t| <= |s|
  {
    if |s| < 2 then ""
    else if s[0] == '*' && s[1] == '/' then s[2..]
    else DropBlock(s[1..])
  }

  function DropBlank(cs: Charset, s: string): (t: string)
    ensures |t| <= |s|
    decreases |s|
  {
    var t := DropSpaces(cs, s);
    if |t| > 1 && t[0] == '/' && t[1] == '/' then DropBlank(cs, DropLine(t[2..]))
    else if |t| > 1 && t[0] == '/' && t[1] == '*' then DropBlank(cs, DropBlock(t[2..]))
    else if t != "" && t[0] == '#' then DropBlank(cs, DropLine(t))
    else t
  }

  // ---- tokens ----

  /** What an escape sequence stands for: unknown ones keep their backslash. */
  function Unescape(c: char): string {
    match c
    case 'n' => "\n"
    case 't' => "\t"
    case '"' => "\""
    case '\\' => "\\"
    case _ => ['\\', c]
  }

  /** The string whose opening quote has been read, and the text behind it. */
  function ReadString(s: string): (r: Option<(string, string)>)
    ensures r.Some? ==> |r.value.1| < |s|
    decreases |s|
  {
    if s == "" then None
    else if s[0] == '\\' && |s| > 1 then
      match ReadString(s[2..])
      case Some((text, rest)) => Some((Unescape(s[1]) + text, rest))
      case None => None
    else if s[0] == '"' then Some(("", s[1..]))
    else
      match ReadString(s[1..])
      case Some((text, rest)) => Some(([s[0]] + text, rest))
      case None => None
  }

  predicate IdentStart(cs: Charset, c: char) {
    c == '_' || cs.letter(c)
  }

  predicate IdentPart(cs: Charset, c: char) {
    c == '_' || c == '.' || cs.letter(c) || cs.digit(c)
  }

  predicate NumberPart(cs: Charset, c: char) {
    cs.digit(c) || c == '.'
  }

  /** The length of the longest prefix of identifier (or number) characters. */
  function WordLength(cs: Charset, s: string, number: bool): (n: nat)
    ensures n <= |s|
    ensures forall i :: 0 <= i < n ==> if number then NumberPart(cs, s[i]) else IdentPart(cs, s[i])
    ensures n < |s| ==> !(if number then NumberPart(cs, s[n]) else IdentPart(cs, s[n]))
  {
    if s != "" && (if number then NumberPart(cs, s[0]) else IdentPart(cs, s[0])) then 1 + WordLength(cs, s[1..], number)
    else 0
  }

  function KeywordKind(word: string): Kind {
    if word == "digraph" then Digraph
    else if word == "subgraph" then Subgraph
    else if word == "graph" then GraphKeyword
    else if word == "node" then NodeKeyword
    else if word == "edge" then EdgeKeyword
    else Ident
  }

  function Punctuation(c: char): Option<Kind> {
    match c
    case '{' => Some(LBrace)
    case '}' => Some(RBrace)
    case '[' => Some(LBracket)
    case ']' => Some(RBracket)
    case '=' => Some(Equals)
    case ';' => Some(Semicolon)
    case ',' => Some(Comma)
    case _ => None
  }

  /** The token at the head of a non-blank text and the text behind it. */
  function ReadToken(cs: Charset, s: string): (r: Option<(Token, string)>)
    requires s != ""
    ensures r.Some? ==> |r.value.1| < |s|
  {
    var p := Punctuation(s[0]);
    if p.Some? then Some((Token(p.value, [s[0]]), s[1..]))
    else if s[0] == '-' && |s| > 1 && s[1] == '>' then Some((Token(Arrow, "->"), s[2..]))
    else if s[0] == '"' then
      match ReadString(s[1..])
      case Some((text, rest)) => Some((Token(Quoted, text), rest))
      case None => None
    else if IdentStart(cs, s[0]) then
      var n := WordLength(cs, s, false);
      Some((Token(KeywordKind(s[..n]), s[..n]), s[n..]))
    else if cs.digit(s[0]) then
      var n := WordLength(cs, s, true);
      Some((Token(Ident, s[..n]), s[n..]))
    else None
  }

  function Lex(cs: Charset, s: string): Stream
    decreases |s|
  {
    var t := DropBlank(cs, s);
    if t == "" then End
    else
      match ReadToken(cs, t)
      case None => Broken
      case Some((tok, rest)) => More(tok, Lex(cs, rest))
  }

  // ---- positions ----

  /** Line and column (from 1) of the character that follows the text. */
  function Place(s: string): (int, int) {
    if s == "" then (1, 1)
    else
      var (line, col) := Place(s[..|s| - 1]);
      if s[|s| - 1] == '\n' then (line + 1, 1) else (line, col + 1)
  }

  datatype Placed = Placed(tok: Token, line: int, col: int)

  datatype LexError = UnterminatedString | UnexpectedCharacter

  class Lexer {
    const cs: Charset
    const src: string
    var pos: nat
    var line: int
    var col: int

    ghost predicate Valid()
      reads this
    {
      pos <= |src| && (line, col) == Place(src[..pos])
    }

    ghost function Rest(): string
      requires Valid()
      reads this
    {
      src[pos..]
    }

    constructor (cs: Charset, src: string)
      ensures Valid() && Rest() == src && this.cs == cs && this.src == src
    {
      this.cs, this.src, pos, line, col := cs, src, 0, 1, 1;
    }

    method Advance() returns (c: char)
      requires Valid() && Rest() != ""
      modifies this
      ensures Valid() && c == old(Rest())[0] && Rest() == old(Rest())[1..] && pos == old(pos) + 1
    {
      c := src[pos];
      assert src[..pos + 1][..pos] == src[..pos];
      pos := pos + 1;
      if c == '\n' {
        line := line + 1;
        col := 1;
      } else {
        col := col + 1;
      }
    }

    method SkipWhitespace()
      requires Valid()
      modifies this
      ensures Valid() && Rest() == DropSpaces(cs, old(Rest()))
    {
      while pos < |src| && cs.space(src[pos])
        invariant Valid() && DropSpaces(cs, Rest()) == DropSpaces(cs, old(Rest()))
        decreases |src| - pos
      {
        var _ := Advance();
      }
    }

    method SkipLineComment()
      requires Valid()
      modifies this
      ensures Valid() && Rest() == DropLine(old(Rest()))
    {
      while pos < |src| && src[pos] != '\n'
        invariant Valid() && DropLine(Rest()) == DropLine(old(Rest()))
        decreases |src| - pos
      {
        var _ := Advance();
      }
    }

    method SkipBlockComment()
      requires Valid()
      modifies this
      ensures Valid() && Rest() == DropBlock(old(Rest()))
    {
      while pos + 1 < |src|
        invariant Valid() && DropBlock(Rest()) == DropBlock(old(Rest()))
        decreases |src| - pos
      {
        if src[pos] == '*' && src[pos + 1] == '/' {
          var _ := Advance();
          var _ := Advance();
          return;
        }
        var _ := Advance();
      }
      while pos < |src|
        invariant Valid() && |Rest()| < 2 && DropBlock(old(Rest())) == ""
        decreases |src| - pos
      {
        var _ := Advance();
      }
    }

    method SkipWhitespaceAndComments()
      requires Valid()
      modifies this
      ensures Valid() && Rest() == DropBlank(cs, old(Rest()))
    {
      while true
        invariant Valid() && DropBlank(cs, Rest()) == DropBlank(cs, old(Rest()))
        decreases |Rest()|
      {
        ghost var rest := Rest();
        SkipWhitespace();
        assert Rest() == DropSpaces(cs, rest);
        if pos + 1 < |src| && src[pos] == '/' && src[pos + 1] == '/' {
          var _ := Advance();
          var _ := Advance();
          SkipLineComment();
          continue;
        }
        if pos + 1 < |src| && src[pos] == '/' && src[pos + 1] == '*' {
          var _ := Advance();
          var _ := Advance();
          SkipBlockComment();
          continue;
        }
        if pos < |src| && src[pos] == '#' {
          SkipLineComment();
          continue;
        }
        break;
      }
    }

    /** `text` and what is still to come make up the string that began at `from`. */
    static ghost predicate StringSoFar(from: string, text: string, rest: string) {
      match ReadString(rest)
      case Some((more, behind)) => ReadString(from) == Some((text + more, behind))
      case None => ReadString(from) == None
    }

    method ReadQuoted() returns (r: Option<string>)
      requires Valid()
      modifies this
      ensures Valid()
      ensures match ReadString(old(Rest()))
              case Some((text, rest)) => r == Some(text) && Rest() == rest
              case None => r == None
    {
      var text := "";
      assert forall more: string :: text + more == more;
      while pos < |src|
        invariant Valid() && StringSoFar(old(Rest()), text, Rest())
        decreases |src| - pos
      {
        ghost var rest := Rest();
        var c := Advance();
        if c == '\\' && pos < |src| {
          var next := Advance();
          assert Rest() == rest[2..];
          StringStep(old(Rest()), text, rest, Unescape(next), Rest());
          text := text + Unescape(next);
          continue;
        }
        if c == '"' {
          assert text + "" == text;
          return Some(text);
        }
        StringStep(old(Rest()), text, rest, [c], Rest());
        text := text + [c];
      }
      return None;
    }

    method ReadWord(number: bool) returns (word: string)
      requires Valid()
      modifies this
      ensures Valid()
      ensures var n := WordLength(cs, old(Rest()), number); word == old(Rest())[..n] && Rest() == old(Rest())[n..]
    {
      hide WordLength, Place, NumberPart, IdentPart;
      word := "";
      ghost var whole := Rest();
      while pos < |src| && (if number then NumberPart(cs, src[pos]) else IdentPart(cs, src[pos]))
        invariant Valid() && |word| <= |whole| && word == whole[..|word|] && Rest() == whole[|word|..]
        invariant WordLength(cs, whole, number) == |word| + WordLength(cs, Rest(), number)
        decreases |src| - pos
      {
        assert whole[..|word| + 1] == whole[..|word|] + [whole[|word|]];
        WordGoesOn(cs, Rest(), number);
        var c := Advance();
        word := word + [c];
      }
      WordGoesOn(cs, Rest(), number);
    }

    /** The next token, with the place of its first character. */
    method NextToken() returns (r: Result<Placed, LexError>)
      requires Valid()
      modifies this
      ensures Valid()
      ensures match r
              case Err(_) => Lex(cs, old(Rest())) == Broken
              case Ok(p) =>
                && (p.line, p.col) == Place(src[..|src| - |DropBlank(cs, old(Rest()))|])
                && Lex(cs, old(Rest())) == (if p.tok.kind == EOF then End else More(p.tok, Lex(cs, Rest())))
                && (p.tok.kind == EOF ==> Rest() == "")
    {
      hide ReadToken, DropBlank, Place;
      SkipWhitespaceAndComments();
      assert |src| - |Rest()| == pos;
      var line, col := this.line, this.col;
      if pos >= |src| {
        return Ok(Placed(Token(EOF, ""), line, col));
      }
      var tok := TokenAt();
      match tok {
        case Err(e) => return Err(e);
        case Ok(t) => return Ok(Placed(t, line, col));
      }
    }

    /** The token that starts here. */
    method TokenAt() returns (r: Result<Token, LexError>)
      requires Valid() && Rest() != ""
      modifies this
      ensures Valid()
      ensures match ReadToken(cs, old(Rest()))
              case None => r.Err?
              case Some((tok, rest)) => r == Ok(tok) && Rest() == rest && tok.kind != EOF
    {
      hide ReadString, WordLength, IdentStart, DropBlank, Place;
      ghost var t := Rest();
      var c := src[pos];
      assert c == t[0];
      var punctuation := Punctuation(c);
      if punctuation.Some? {
        var _ := Advance();
        return Ok(Token(punctuation.value, [c]));
      } else if c == '-' && pos + 1 < |src| && src[pos + 1] == '>' {
        var _ := Advance();
        var _ := Advance();
        return Ok(Token(Arrow, "->"));
      } else if c == '"' {
        var _ := Advance();
        var text := ReadQuoted();
        return if text.None? then Err(UnterminatedString) else Ok(Token(Quoted, text.value));
      } else if IdentStart(cs, c) {
        var word := ReadWord(false);
        return Ok(Token(KeywordKind(word), word));
      } else if cs.digit(c) {
        var word := ReadWord(true);
        return Ok(Token(Ident, word));
      }
      return Err(UnexpectedCharacter);
    }
  }

  lemma WordGoesOn(cs: Charset, s: string, number: bool)
    ensures WordLength(cs, s, number) ==
              if s != "" && (if number then NumberPart(cs, s[0]) else IdentPart(cs, s[0]))
              then 1 + WordLength(cs, s[1..], number) else 0
  {
  }

  lemma StringStep(from: string, text: string, rest: string, piece: string, rest': string)
    requires Lexer.StringSoFar(from, text, rest)
    requires match ReadString(rest')
             case Some((more, behind)) => ReadString(rest) == Some((piece + more, behind))
             case None => ReadString(rest) == None
    ensures Lexer.StringSoFar(from, text + piece, rest')
  {
    if ReadString(rest').Some? {
      var more := ReadString(rest').value.0;
      assert text + (piece + more) == (text + piece) + more;
    }
  }
}
