/** internal/attractor/cond/cond.go: edge conditions, parsed and evaluated. */
module Cond {
  import opened Text
  import Model

  datatype Op = Equal | NotEqual | Truthy

  datatype Clause = Clause(key: string, op: Op, val: string)

  datatype Env = Env(outcome: string, preferredLabel: string, context: map<string, string>)

  datatype Malformed = Malformed

  // ---- parsing ----

  /** The text between the "&&" separators, taken from the left. */
  function SplitAnd(s: string): (parts: seq<string>)
    ensures |parts| > 0
  {
    if s == "" then [""]
    else if |s| > 1 && s[0] == '&' && s[1] == '&' then [""] + SplitAnd(s[2..])
    else
      var rest := SplitAnd(s[1..]);
      [[s[0]] + rest[0]] + rest[1..]
  }

  /** What the loop of splitAnd still owes: the finished parts, then the split
      of the rest with `cur` in front of its first part. */
  function Pending(parts: seq<string>, cur: string, rest: string): seq<string> {
    parts + [cur + SplitAnd(rest)[0]] + SplitAnd(rest)[1..]
  }

  lemma PendingAfterSeparator(parts: seq<string>, cur: string, t: string)
    requires |t| > 1 && t[0] == '&' && t[1] == '&'
    ensures Pending(parts, cur, t) == Pending(parts + [cur], "", t[2..])
  {
    var rest := SplitAnd(t[2..]);
    assert SplitAnd(t) == [""] + rest;
    assert cur + "" == cur && "" + rest[0] == rest[0];
    assert [rest[0]] + rest[1..] == rest;
  }

  lemma PendingAfterChar(parts: seq<string>, cur: string, t: string)
    requires t != "" && !(|t| > 1 && t[0] == '&' && t[1] == '&')
    ensures Pending(parts, cur, t) == Pending(parts, cur + [t[0]], t[1..])
  {
    var rest := SplitAnd(t[1..]);
    assert cur + ([t[0]] + rest[0]) == (cur + [t[0]]) + rest[0];
  }

  method SplitAndLoop(s: string) returns (parts: seq<string>)
    ensures parts == SplitAnd(s)
  {
    parts := [];
    var cur, i := "", 0;
    assert s[0..] == s && cur + SplitAnd(s)[0] == SplitAnd(s)[0];
    while i < |s|
      invariant 0 <= i <= |s|
      invariant SplitAnd(s) == Pending(parts, cur, s[i..])
    {
      if i + 1 < |s| && s[i] == '&' && s[i + 1] == '&' {
        PendingAfterSeparator(parts, cur, s[i..]);
        assert s[i..][2..] == s[i + 2..];
        parts := parts + [cur];
        cur := "";
        i := i + 2;
      } else {
        PendingAfterChar(parts, cur, s[i..]);
        assert s[i..][1..] == s[i + 1..];
        cur := cur + [s[i]];
        i := i + 1;
      }
    }
    assert s[i..] == "" && cur + "" == cur;
    parts := parts + [cur];
  }

  function ParseBinary(cs: Charset, s: string, at: nat, op: Op, width: nat): Result<Clause, Malformed>
    requires at + width <= |s|
  {
    var key, val := Trim(cs, s[..at]), Trim(cs, s[at + width..]);
    if key == "" || val == "" then Err(Malformed) else Ok(Clause(key, op, val))
  }

  function ParseClause(cs: Charset, s: string): Result<Clause, Malformed> {
    if s == "" then Err(Malformed)
    else
      var ne := Index(s, "!=");
      if ne.Some? && ne.value > 0 then ParseBinary(cs, s, ne.value, NotEqual, 2)
      else
        var eq := Index(s, "=");
        if eq.Some? && eq.value > 0 then ParseBinary(cs, s, eq.value, Equal, 1)
        else Ok(Clause(s, Truthy, ""))
  }

  function ParseClauses(cs: Charset, parts: seq<string>): Result<seq<Clause>, Malformed> {
    if parts == [] then Ok([])
    else
      match ParseClause(cs, Trim(cs, parts[0]))
      case Err(e) => Err(e)
      case Ok(c) =>
        match ParseClauses(cs, parts[1..])
        case Err(e) => Err(e)
        case Ok(cl) => Ok([c] + cl)
  }

  function Parse(cs: Charset, s: string): Result<seq<Clause>, Malformed> {
    var t := Trim(cs, s);
    if t == "" then Ok([]) else ParseClauses(cs, SplitAnd(t))
  }

  // ---- evaluation ----

  function Resolve(key: string, env: Env): string {
    if key == "outcome" then env.outcome
    else if key == "preferred_label" then env.preferredLabel
    else if HasPrefix(key, "context.") then Model.Attr(env.context, key[|"context."|..])
    else Model.Attr(env.context, key)
  }

  predicate EvalClause(c: Clause, env: Env) {
    match c.op
    case Equal => Resolve(c.key, env) == c.val
    case NotEqual => Resolve(c.key, env) != c.val
    case Truthy => Resolve(c.key, env) != ""
  }

  predicate Eval(clauses: seq<Clause>, env: Env) {
    forall c :: c in clauses ==> EvalClause(c, env)
  }

  /** Whether the condition text is well formed and true: the test of an edge. */
  predicate Holds(cs: Charset, text: string, env: Env) {
    var expr := Parse(cs, text);
    expr.Ok? && Eval(expr.value, env)
  }

  // ---- a condition is the conjunction of its parts ----

  /** A text that a following "&&" does not run into. */
  predicate Closed(a: string) {
    var last := SplitAnd(a)[|SplitAnd(a)| - 1];
    last != "" ==> last[|last| - 1] != '&'
  }

  lemma {:induction false} SplitOfAnd(a: string, b: string)
    requires Closed(a)
    ensures SplitAnd(a + "&&" + b) == SplitAnd(a) + SplitAnd(b)
  {
    hide SplitAnd, Closed;
    var t := a + "&&" + b;
    if a == "" {
      assert SplitAnd(a) == [""] by { SplitNothing(); }
      assert t == ['&', '&'] + b && t[2..] == b;
      SplitSeparator(t);
    } else if |a| > 1 && a[0] == '&' && a[1] == '&' {
      assert t[0] == a[0] && t[1] == a[1] && t[2..] == a[2..] + "&&" + b;
      ClosedBehindSeparator(a);
      SplitOfAnd(a[2..], b);
      SplitSeparator(a);
      SplitSeparator(t);
    } else {
      LoneAmpersand();
      assert |a| == 1 && a[0] == '&' ==> a == "&";
      ClosedBehind(a);
      assert t[0] == a[0] && t[1..] == a[1..] + "&&" + b;
      assert t[1] == if |a| > 1 then a[1] else '&';
      SplitOfAnd(a[1..], b);
      SplitChar(a);
      SplitChar(t);
      SplitCharInTwo(a[0], SplitAnd(a[1..]), SplitAnd(b));
    }
  }

  lemma SplitCharInTwo(c: char, x: seq<string>, y: seq<string>)
    requires x != []
    ensures [[c] + (x + y)[0]] + (x + y)[1..] == ([[c] + x[0]] + x[1..]) + y
  {
    assert (x + y)[0] == x[0] && (x + y)[1..] == x[1..] + y;
  }

  lemma SplitNothing()
    ensures SplitAnd("") == [""]
  {
  }

  lemma SplitSeparator(t: string)
    requires |t| > 1 && t[0] == '&' && t[1] == '&'
    ensures SplitAnd(t) == [""] + SplitAnd(t[2..])
  {
  }

  lemma LoneAmpersand()
    ensures !Closed("&")
  {
    assert "&"[1..] == "";
    SplitNothing();
    SplitChar("&");
    assert SplitAnd("&")[0] == "&";
  }

  lemma SplitChar(t: string)
    requires t != "" && !(|t| > 1 && t[0] == '&' && t[1] == '&')
    ensures SplitAnd(t) == [[t[0]] + SplitAnd(t[1..])[0]] + SplitAnd(t[1..])[1..]
  {
  }

  lemma ClosedBehindSeparator(a: string)
    requires Closed(a) && |a| > 1 && a[0] == '&' && a[1] == '&'
    ensures Closed(a[2..])
  {
    SplitSeparator(a);
  }

  lemma ClosedBehind(a: string)
    requires Closed(a) && a != "" && !(|a| > 1 && a[0] == '&' && a[1] == '&')
    ensures Closed(a[1..])
  {
    hide SplitAnd;
    SplitChar(a);
    LastPart(a[0], SplitAnd(a[1..]));
  }

  lemma LastPart(c: char, rest: seq<string>)
    requires rest != []
    ensures var all := [[c] + rest[0]] + rest[1..];
            all[|all| - 1] == if |rest| == 1 then [c] + rest[0] else rest[|rest| - 1]
  {
  }

  /** The parts, each without the space around it. */
  function TrimmedParts(cs: Charset, parts: seq<string>): (out: seq<string>)
    ensures |out| == |parts| && forall i :: 0 <= i < |out| ==> out[i] == Trim(cs, parts[i])
  {
    if parts == [] then [] else [Trim(cs, parts[0])] + TrimmedParts(cs, parts[1..])
  }

  /** Space in front of a text or behind it only changes space in a part. */
  lemma TrimSpaceFirst(cs: Charset, c: char, x: string)
    requires cs.space(c)
    ensures Trim(cs, [c] + x) == Trim(cs, x)
  {
    assert ([c] + x)[1..] == x;
  }

  lemma {:induction false} TrimLeftSpaceLast(cs: Charset, x: string, c: char)
    requires cs.space(c)
    ensures TrimLeft(cs, x + [c]) == if TrimLeft(cs, x) == "" then "" else TrimLeft(cs, x) + [c]
  {
    if x == "" {
      assert x + [c] == [c] && [c][1..] == "";
    } else {
      assert (x + [c])[1..] == x[1..] + [c];
      if cs.space(x[0]) {
        TrimLeftSpaceLast(cs, x[1..], c);
      }
    }
  }

  lemma TrimSpaceLast(cs: Charset, x: string, c: char)
    requires cs.space(c)
    ensures Trim(cs, x + [c]) == Trim(cs, x)
  {
    TrimLeftSpaceLast(cs, x, c);
    var l := TrimLeft(cs, x);
    assert (l + [c])[..|l|] == l;
  }

  lemma {:induction false} SplitTrimLeft(cs: Charset, s: string)
    requires !cs.space('&')
    ensures TrimmedParts(cs, SplitAnd(TrimLeft(cs, s))) == TrimmedParts(cs, SplitAnd(s))
  {
    if s != "" && cs.space(s[0]) {
      SplitTrimLeft(cs, s[1..]);
      var rest := SplitAnd(s[1..]);
      assert SplitAnd(s) == [[s[0]] + rest[0]] + rest[1..];
      TrimSpaceFirst(cs, s[0], rest[0]);
      SameTrimmed(cs, SplitAnd(s), rest);
    }
  }

  lemma SameTrimmed(cs: Charset, a: seq<string>, b: seq<string>)
    requires |a| == |b| && forall i :: 0 <= i < |a| ==> Trim(cs, a[i]) == Trim(cs, b[i])
    ensures TrimmedParts(cs, a) == TrimmedParts(cs, b)
  {
    assert forall i :: 0 <= i < |a| ==> TrimmedParts(cs, a)[i] == TrimmedParts(cs, b)[i];
  }

  /** A last character other than '&' goes to the last part. */
  lemma {:induction false} SplitLast(s: string, c: char)
    requires c != '&'
    ensures SplitAnd(s + [c]) == WithLast(SplitAnd(s), c)
  {
    hide SplitAnd;
    var t := s + [c];
    if s == "" {
      SplitNothing();
      assert t == [c] && t[1..] == "";
      SplitChar(t);
      assert [c] + "" == "" + [c];
    } else if |s| > 1 && s[0] == '&' && s[1] == '&' {
      assert t[0] == s[0] && t[1] == s[1] && t[2..] == s[2..] + [c];
      SplitLast(s[2..], c);
      SplitSeparator(s);
      SplitSeparator(t);
    } else {
      assert t[0] == s[0] && t[1..] == s[1..] + [c];
      assert t[1] == if |s| > 1 then s[1] else c;
      SplitLast(s[1..], c);
      SplitChar(s);
      SplitChar(t);
      CharThenLast(s[0], SplitAnd(s[1..]), c);
    }
  }

  function WithLast(parts: seq<string>, c: char): seq<string>
    requires parts != []
  {
    parts[..|parts| - 1] + [parts[|parts| - 1] + [c]]
  }

  lemma CharThenLast(d: char, parts: seq<string>, c: char)
    requires parts != []
    ensures WithLast([[d] + parts[0]] + parts[1..], c) == [[d] + WithLast(parts, c)[0]] + WithLast(parts, c)[1..]
  {
    if |parts| == 1 {
      assert [d] + (parts[0] + [c]) == ([d] + parts[0]) + [c];
    }
  }

  lemma {:induction false} SplitTrimRight(cs: Charset, s: string)
    requires !cs.space('&')
    ensures TrimmedParts(cs, SplitAnd(TrimRight(cs, s))) == TrimmedParts(cs, SplitAnd(s))
    decreases |s|
  {
    if s != "" && cs.space(s[|s| - 1]) {
      var front, c := s[..|s| - 1], s[|s| - 1];
      assert s == front + [c];
      hide SplitAnd, Trim, WithLast, TrimmedParts;
      SplitTrimRight(cs, front);
      SplitLast(front, c);
      LastTrimmed(cs, SplitAnd(front), c);
    }
  }

  lemma LastTrimmed(cs: Charset, parts: seq<string>, c: char)
    requires parts != [] && cs.space(c)
    ensures TrimmedParts(cs, WithLast(parts, c)) == TrimmedParts(cs, parts)
  {
    hide Trim;
    TrimSpaceLast(cs, parts[|parts| - 1], c);
    SameTrimmed(cs, WithLast(parts, c), parts);
  }

  /** ParseClauses looks at the trimmed parts only, and goes part by part. */
  lemma {:induction false} ClausesOfTrimmed(cs: Charset, a: seq<string>, b: seq<string>)
    requires TrimmedParts(cs, a) == TrimmedParts(cs, b)
    ensures ParseClauses(cs, a) == ParseClauses(cs, b)
  {
    assert |a| == |b| by { assert |TrimmedParts(cs, a)| == |a| && |TrimmedParts(cs, b)| == |b|; }
    if a != [] {
      assert TrimmedParts(cs, a)[0] == TrimmedParts(cs, b)[0];
      assert TrimmedParts(cs, a)[1..] == TrimmedParts(cs, a[1..]);
      assert TrimmedParts(cs, b)[1..] == TrimmedParts(cs, b[1..]);
      ClausesOfTrimmed(cs, a[1..], b[1..]);
    }
  }

  lemma {:induction false} ClausesInTwo(cs: Charset, a: seq<string>, b: seq<string>)
    ensures var x, y, z := ParseClauses(cs, a), ParseClauses(cs, b), ParseClauses(cs, a + b);
            && (z.Ok? <==> x.Ok? && y.Ok?)
            && (z.Ok? ==> z.value == x.value + y.value)
  {
    if a == [] {
      assert a + b == b;
    } else {
      assert (a + b)[1..] == a[1..] + b && (a + b)[0] == a[0];
      ClausesInTwo(cs, a[1..], b);
    }
  }

  /** Parse without the outer trimming, which matters only for a blank text. */
  lemma {:induction false} ParseOfParts(cs: Charset, s: string)
    requires !cs.space('&')
    ensures Parse(cs, s) == if Trim(cs, s) == "" then Ok([]) else ParseClauses(cs, SplitAnd(s))
  {
    SplitTrimLeft(cs, s);
    SplitTrimRight(cs, TrimLeft(cs, s));
    ClausesOfTrimmed(cs, SplitAnd(Trim(cs, s)), SplitAnd(s));
  }

  lemma {:induction false} BlankIsMalformed(cs: Charset, s: string)
    requires !cs.space('&') && Trim(cs, s) == ""
    ensures ParseClauses(cs, SplitAnd(s)).Err?
  {
    SplitTrimLeft(cs, s);
    SplitTrimRight(cs, TrimLeft(cs, s));
    assert SplitAnd("") == [""];
    ClausesOfTrimmed(cs, SplitAnd(s), [""]);
  }

  lemma {:induction false} SeparatorIsNotBlank(cs: Charset, a: string, b: string)
    requires !cs.space('&')
    ensures Trim(cs, a + "&&" + b) != ""
  {
    var t := a + "&&" + b;
    assert t[|a|] == '&';
    TrimLeftKeeps(cs, t, |a|);
    var l := TrimLeft(cs, t);
    var i :| 0 <= i < |l| && l[i] == '&';
    TrimRightKeeps(cs, l, i);
  }

  lemma {:induction false} TrimLeftKeeps(cs: Charset, s: string, i: nat)
    requires i < |s| && !cs.space(s[i])
    ensures exists j :: 0 <= j < |TrimLeft(cs, s)| && TrimLeft(cs, s)[j] == s[i]
  {
    if cs.space(s[0]) {
      TrimLeftKeeps(cs, s[1..], i - 1);
      assert s[1..][i - 1] == s[i] && TrimLeft(cs, s) == TrimLeft(cs, s[1..]);
    } else {
      assert TrimLeft(cs, s)[i] == s[i];
    }
  }

  lemma {:induction false} TrimRightKeeps(cs: Charset, s: string, i: nat)
    requires i < |s| && !cs.space(s[i])
    ensures TrimRight(cs, s) != ""
    decreases |s|
  {
    if cs.space(s[|s| - 1]) {
      TrimRightKeeps(cs, s[..|s| - 1], i);
    }
  }

  lemma EvalInTwo(x: seq<Clause>, y: seq<Clause>, env: Env)
    ensures Eval(x + y, env) <==> Eval(x, env) && Eval(y, env)
  {
    hide EvalClause;
    assert forall c :: c in x ==> c in x + y;
    assert forall c :: c in y ==> c in x + y;
  }

  /** `a && b` holds exactly when both texts hold and neither is blank: a blank
      text alone always holds, as a part it is malformed. */
  lemma AndMeansBoth(cs: Charset, a: string, b: string, env: Env)
    requires !cs.space('&') && Closed(a)
    ensures Holds(cs, a + "&&" + b, env)
       <==> Trim(cs, a) != "" && Trim(cs, b) != "" && Holds(cs, a, env) && Holds(cs, b, env)
  {
    hide ParseClauses, ParseClause, Trim, SplitAnd, EvalClause, Parse;
    ParseOfParts(cs, a);
    ParseOfParts(cs, b);
    ParseOfParts(cs, a + "&&" + b);
    SeparatorIsNotBlank(cs, a, b);
    SplitOfAnd(a, b);
    ClausesInTwo(cs, SplitAnd(a), SplitAnd(b));
    var x, y := ParseClauses(cs, SplitAnd(a)), ParseClauses(cs, SplitAnd(b));
    if x.Ok? && y.Ok? {
      EvalInTwo(x.value, y.value, env);
    }
    if Trim(cs, a) == "" { BlankIsMalformed(cs, a); }
    if Trim(cs, b) == "" { BlankIsMalformed(cs, b); }
  }
}
