/** Numbers, truth values and space in attribute texts. */
module TextMeaning {
  import opened Text

  /** A decimal text read digit by digit. */
  lemma NextDigit(s: string, d: char)
    requires (s == "" || Decimal(s)) && '0' <= d <= '9'
    ensures Decimal(s + [d]) && DecimalValue(s + [d]) == 10 * DecimalValue(s) + (d as int - '0' as int)
  {
    assert (s + [d])[..|s|] == s;
  }

  /** An integer is decimal digits with at most one sign in front, in 64 bits. */
  lemma IntegerMeans(s: string)
    requires Decimal(s)
    ensures var v: int := DecimalValue(s);
            && Atoi(s) == (if v < INT64_LIMIT then Some(v) else None)
            && Atoi("+" + s) == (if v < INT64_LIMIT then Some(v) else None)
            && Atoi("-" + s) == (if v <= INT64_LIMIT then Some(-v) else None)
  {
    assert s[0] != '-' && s[0] != '+';
    assert ("+" + s)[1..] == s && ("-" + s)[1..] == s;
  }

  lemma OtherwiseNoInteger(s: string)
    requires !Decimal(s) && (s != "" && (s[0] == '-' || s[0] == '+') ==> !Decimal(s[1..]))
    ensures Atoi(s) == None
  {
  }

  /** Six texts are true, six are false, no other is either. */
  lemma TruthMeans(s: string)
    ensures ParseBool(s) == Some(true) <==> s in ["1", "t", "T", "true", "TRUE", "True"]
    ensures ParseBool(s) == Some(false) <==> s in ["0", "f", "F", "false", "FALSE", "False"]
  {
  }

  predicate AllSpace(cs: Charset, s: string) {
    forall i :: 0 <= i < |s| ==> cs.space(s[i])
  }

  lemma {:induction false} LeftTrimmed(cs: Charset, a: string, w: string)
    requires AllSpace(cs, a) && (w != "" ==> !cs.space(w[0]))
    ensures TrimLeft(cs, a + w) == w
  {
    if a == "" {
      assert a + w == w;
    } else {
      assert (a + w)[1..] == a[1..] + w;
      LeftTrimmed(cs, a[1..], w);
    }
  }

  lemma {:induction false} RightTrimmed(cs: Charset, w: string, b: string)
    requires AllSpace(cs, b) && (w != "" ==> !cs.space(w[|w| - 1]))
    ensures TrimRight(cs, w + b) == w
    decreases |b|
  {
    if b == "" {
      assert w + b == w;
    } else {
      assert (w + b)[..|w + b| - 1] == w + b[..|b| - 1];
      RightTrimmed(cs, w, b[..|b| - 1]);
    }
  }

  /** Trimming takes off the space at both ends, and nothing else. */
  lemma TrimMeans(cs: Charset, a: string, w: string, b: string)
    requires AllSpace(cs, a) && AllSpace(cs, b) && w != "" && !cs.space(w[0]) && !cs.space(w[|w| - 1])
    ensures Trim(cs, a + w + b) == w
  {
    assert a + w + b == a + (w + b) && (w + b)[0] == w[0];
    LeftTrimmed(cs, a, w + b);
    RightTrimmed(cs, w, b);
  }
}
