/** Small types shared by every module, and the few string operations of Go's
    standard library that the pipeline code calls. */
module Text {

  datatype Option<+T> = None | Some(value: T)

  datatype Result<+T, +E> = Ok(value: T) | Err(error: E)

  /** The Unicode classes and the lower-case mapping that Go's unicode package supplies.
      Nothing is fixed about them; a property that needs a class to avoid the
      punctuation says so with a predicate of its own. */
  datatype Charset = Charset(space: char -> bool, letter: char -> bool, digit: char -> bool, lower: char -> char)

  function TrimLeft(cs: Charset, s: string): string {
    if s != "" && cs.space(s[0]) then TrimLeft(cs, s[1..]) else s
  }

  function TrimRight(cs: Charset, s: string): string {
    if s != "" && cs.space(s[|s| - 1]) then TrimRight(cs, s[..|s| - 1]) else s
  }

  /** strings.TrimSpace */
  function Trim(cs: Charset, s: string): string {
    TrimRight(cs, TrimLeft(cs, s))
  }

  /** strings.ToLower */
  function ToLower(cs: Charset, s: string): string {
    seq(|s|, i requires 0 <= i < |s| => cs.lower(s[i]))
  }

  predicate HasPrefix(s: string, p: string) {
    |p| <= |s| && s[..|p|] == p
  }

  predicate OccursAt(s: string, p: string, i: int) {
    0 <= i && i + |p| <= |s| && s[i..i + |p|] == p
  }

  /** The first occurrence of `p` at or after `from`. */
  function IndexFrom(s: string, p: string, from: nat): (r: Option<nat>)
    requires from <= |s|
    ensures r.Some? ==> from <= r.value && OccursAt(s, p, r.value)
    ensures forall j :: from <= j && (r.Some? ==> j < r.value) ==> !OccursAt(s, p, j)
    decreases |s| - from
  {
    if OccursAt(s, p, from) then Some(from)
    else if from == |s| then None
    else IndexFrom(s, p, from + 1)
  }

  /** strings.Index, with None for -1. */
  function Index(s: string, p: string): (r: Option<nat>)
    ensures r.Some? ==> OccursAt(s, p, r.value)
    ensures forall j :: (r.Some? ==> j < r.value) ==> !OccursAt(s, p, j)
  {
    IndexFrom(s, p, 0)
  }

  /** Go's `<` on strings: lexicographic (for valid UTF-8 the byte order and the
      order of the code points agree). */
  predicate Less(a: string, b: string) {
    b != "" && (a == "" || a[0] < b[0] || (a[0] == b[0] && Less(a[1..], b[1..])))
  }

  lemma {:induction false} LessTotal(a: string, b: string)
    ensures a == b || Less(a, b) || Less(b, a)
    ensures !(Less(a, b) && Less(b, a))
    ensures a == b ==> !Less(a, b)
    decreases |a|
  {
    if a != "" && b != "" {
      LessTotal(a[1..], b[1..]);
      if a[0] == b[0] && a[1..] == b[1..] {
        assert a == [a[0]] + a[1..] && b == [b[0]] + b[1..];
      }
    }
  }

  lemma {:induction false} LessTransitive(a: string, b: string, c: string)
    requires Less(a, b) && Less(b, c)
    ensures Less(a, c)
    decreases |a|
  {
    if a != "" && a[0] == b[0] == c[0] {
      LessTransitive(a[1..], b[1..], c[1..]);
    }
  }

  // ---- strconv ----

  predicate Decimal(s: string) {
    s != "" && forall i :: 0 <= i < |s| ==> '0' <= s[i] <= '9'
  }

  function DecimalValue(s: string): nat
    requires forall i :: 0 <= i < |s| ==> '0' <= s[i] <= '9'
  {
    if s == "" then 0
    else 10 * DecimalValue(s[..|s| - 1]) + (s[|s| - 1] as int - '0' as int)
  }

  const INT64_LIMIT: int := 0x8000_0000_0000_0000

  /** strconv.Atoi on a 64-bit platform: an optional sign, then digits, in range. */
  function Atoi(s: string): (r: Option<int>)
    ensures r.Some? ==> -INT64_LIMIT <= r.value < INT64_LIMIT
  {
    var digits := if s != "" && (s[0] == '-' || s[0] == '+') then s[1..] else s;
    if !Decimal(digits) then None
    else
      var magnitude: int := DecimalValue(digits);
      var n := if s[0] == '-' then -magnitude else magnitude;
      if -INT64_LIMIT <= n < INT64_LIMIT then Some(n) else None
  }

  /** strconv.ParseBool */
  function ParseBool(s: string): Option<bool> {
    if s in ["1", "t", "T", "TRUE", "true", "True"] then Some(true)
    else if s in ["0", "f", "F", "FALSE", "false", "False"] then Some(false)
    else None
  }
}
