/** internal/attractor/style/stylesheet.go: which properties a node gets. */
module Stylesheet {
  import opened Text
  import opened Model

  type Props = map<string, string>

  datatype Selector = Universal | Class(name: string) | ByID(id: string) {
    function Specificity(): nat {
      match this
      case Universal => 0
      case Class(_) => 1
      case ByID(_) => 2
    }
  }

  datatype Rule = Rule(selector: Selector, props: Props)

  /** strings.Split at commas. */
  function SplitCommas(s: string): (parts: seq<string>)
    ensures |parts| > 0
  {
    if s == "" then [""]
    else
      var rest := SplitCommas(s[1..]);
      if s[0] == ',' then [""] + rest else [[s[0]] + rest[0]] + rest[1..]
  }

  predicate HasClass(cs: Charset, classes: string, name: string) {
    exists i :: 0 <= i < |SplitCommas(classes)| && Trim(cs, SplitCommas(classes)[i]) == name
  }

  predicate Matches(cs: Charset, s: Selector, n: Node) {
    match s
    case Universal => true
    case ByID(id) => n.id == id
    case Class(name) => Attr(n.attrs, "shape") == name || HasClass(cs, Attr(n.attrs, "class"), name)
  }

  // ---- the simple form ----

  predicate Sets(cs: Charset, r: Rule, n: Node, key: string) {
    Matches(cs, r.selector, n) && key in r.props
  }

  /** Rule i decides `key`: no other rule that sets it is more specific, or as
      specific and later. */
  predicate Decides(cs: Charset, rules: seq<Rule>, n: Node, key: string, i: nat) {
    && i < |rules| && Sets(cs, rules[i], n, key)
    && forall j :: 0 <= j < |rules| && Sets(cs, rules[j], n, key) ==>
         var a, b := rules[j].selector.Specificity(), rules[i].selector.Specificity();
         a < b || (a == b && j <= i)
  }

  /** The deciding rule, by scanning the rules in order. */
  function Winner(cs: Charset, rules: seq<Rule>, n: Node, key: string): (w: Option<nat>)
    ensures w.Some? ==> Decides(cs, rules, n, key, w.value)
    ensures w.None? ==> forall j :: 0 <= j < |rules| ==> !Sets(cs, rules[j], n, key)
  {
    if rules == [] then None
    else
      var front, last := rules[..|rules| - 1], rules[|rules| - 1];
      assert forall j :: 0 <= j < |front| ==> front[j] == rules[j];
      var w := Winner(cs, front, n, key);
      if !Sets(cs, last, n, key) then w
      else if w.None? || front[w.value].selector.Specificity() <= last.selector.Specificity() then Some(|rules| - 1)
      else w
  }

  function AllKeys(rules: seq<Rule>): set<string> {
    set r, k | r in rules && k in r.props :: k
  }

  /** The properties of a node: each from the rule that decides it. */
  function Resolution(cs: Charset, rules: seq<Rule>, n: Node): (m: Props)
    ensures forall k :: k in m <==> Winner(cs, rules, n, k).Some?
    ensures forall k :: k in m ==> m[k] == rules[Winner(cs, rules, n, k).value].props[k]
  {
    assert forall k :: Winner(cs, rules, n, k).Some? ==> rules[Winner(cs, rules, n, k).value] in rules;
    map k | k in AllKeys(rules) && Winner(cs, rules, n, k).Some? :: rules[Winner(cs, rules, n, k).value].props[k]
  }

  // ---- the sorted form of the code ----

  datatype Match = Match(spec: nat, order: nat, props: Props)

  predicate Before(a: Match, b: Match) {
    a.spec < b.spec || (a.spec == b.spec && a.order < b.order)
  }

  predicate SortedMatches(s: seq<Match>) {
    forall i, j :: 0 <= i < j < |s| ==> !Before(s[j], s[i])
  }

  function InsertMatch(m: Match, s: seq<Match>): (out: seq<Match>)
    requires SortedMatches(s)
    ensures SortedMatches(out)
    ensures forall x :: x in out <==> x == m || x in s
  {
    if s == [] then [m]
    else if Before(m, s[0]) then [m] + s
    else
      var tail := InsertMatch(m, s[1..]);
      assert s == [s[0]] + s[1..];
      assert forall x :: x in tail ==> !Before(x, s[0]);
      [s[0]] + tail
  }

  /** sort.Slice by specificity, then by position. */
  function SortMatches(s: seq<Match>): (out: seq<Match>)
    ensures SortedMatches(out)
    ensures forall x :: x in out <==> x in s
  {
    if s == [] then []
    else
      assert s == [s[0]] + s[1..];
      InsertMatch(s[0], SortMatches(s[1..]))
  }

  predicate MatchOf(cs: Charset, rules: seq<Rule>, n: Node, m: Match) {
    && m.order < |rules| && Matches(cs, rules[m.order].selector, n)
    && m.spec == rules[m.order].selector.Specificity() && m.props == rules[m.order].props
  }

  /** Later maps over earlier ones. */
  function Overlay(s: seq<Match>): Props {
    if s == [] then map[] else Overlay(s[..|s| - 1]) + s[|s| - 1].props
  }

  lemma {:induction false} OverlayTakesLast(s: seq<Match>, k: string)
    ensures k in Overlay(s) <==> exists i :: 0 <= i < |s| && k in s[i].props
    ensures forall i :: 0 <= i < |s| && k in s[i].props && (forall j :: i < j < |s| ==> k !in s[j].props) ==>
              Overlay(s)[k] == s[i].props[k]
  {
    if s != [] {
      OverlayTakesLast(s[..|s| - 1], k);
    }
  }

  lemma {:induction false} LastWith(s: seq<Match>, k: string) returns (i: nat)
    requires exists j :: 0 <= j < |s| && k in s[j].props
    ensures i < |s| && k in s[i].props && forall j :: i < j < |s| ==> k !in s[j].props
  {
    if k in s[|s| - 1].props {
      i := |s| - 1;
    } else {
      i := LastWith(s[..|s| - 1], k);
    }
  }

  lemma SortedDecides(cs: Charset, rules: seq<Rule>, n: Node, sorted: seq<Match>, k: string)
    requires SortedMatches(sorted)
    requires forall m :: m in sorted <==> MatchOf(cs, rules, n, m)
    ensures k in Overlay(sorted) <==> k in Resolution(cs, rules, n)
    ensures k in Overlay(sorted) ==> Overlay(sorted)[k] == Resolution(cs, rules, n)[k]
  {
    hide Matches, Decides, Overlay, AllKeys;
    OverlayTakesLast(sorted, k);
    var w := Winner(cs, rules, n, k);
    if w.Some? {
      assert Sets(cs, rules[w.value], n, k) by { WinnerSets(cs, rules, n, k); }
      var m := Match(rules[w.value].selector.Specificity(), w.value, rules[w.value].props);
      assert m in sorted;
      var i := LastWith(sorted, k);
      var at :| 0 <= at < |sorted| && sorted[at] == m;
      assert sorted[i] in sorted;
      LastIsWinner(cs, rules, n, k, m, sorted[i], at < i);
    } else {
      assert forall m :: m in sorted ==> MatchOf(cs, rules, n, m) && !Sets(cs, rules[m.order], n, k);
      assert forall i :: 0 <= i < |sorted| ==> sorted[i] in sorted && k !in sorted[i].props;
    }
  }

  lemma WinnerSets(cs: Charset, rules: seq<Rule>, n: Node, k: string)
    requires Winner(cs, rules, n, k).Some?
    ensures var w := Winner(cs, rules, n, k).value; w < |rules| && Sets(cs, rules[w], n, k)
  {
  }

  /** The winner's match and a later-or-equal match that sets the key coincide. */
  lemma LastIsWinner(cs: Charset, rules: seq<Rule>, n: Node, k: string, m: Match, last: Match, later: bool)
    requires Winner(cs, rules, n, k) == Some(m.order)
    requires MatchOf(cs, rules, n, m) && MatchOf(cs, rules, n, last) && k in last.props
    requires if later then !Before(last, m) else last == m
    ensures last == m
  {
    hide Matches;
    assert Decides(cs, rules, n, k, m.order);
    assert Sets(cs, rules[last.order], n, k);
  }

  /** The rules that match, in the order of the stylesheet. */
  method CollectMatches(cs: Charset, rules: seq<Rule>, n: Node) returns (matches: seq<Match>)
    ensures forall m :: m in matches <==> MatchOf(cs, rules, n, m)
  {
    hide Matches;
    matches := [];
    for i := 0 to |rules|
      invariant forall m :: m in matches <==> MatchOf(cs, rules, n, m) && m.order < i
    {
      if Matches(cs, rules[i].selector, n) {
        matches := matches + [Match(rules[i].selector.Specificity(), i, rules[i].props)];
      }
    }
  }

  /** Later maps written over earlier ones. */
  method OverlayAll(sorted: seq<Match>) returns (result: Props)
    ensures result == Overlay(sorted)
  {
    result := map[];
    for i := 0 to |sorted|
      invariant result == Overlay(sorted[..i])
    {
      assert sorted[..i + 1][..i] == sorted[..i];
      result := result + sorted[i].props;
    }
    assert sorted[..|sorted|] == sorted;
  }

  /** Resolve: collect the matches, sort them, overlay their properties. */
  method Resolve(cs: Charset, rules: seq<Rule>, n: Node) returns (result: Props)
    ensures result == Resolution(cs, rules, n)
  {
    hide *;
    var matches := CollectMatches(cs, rules, n);
    var sorted := SortMatches(matches);
    result := OverlayAll(sorted);
    forall k
      ensures k in result <==> k in Resolution(cs, rules, n)
      ensures k in result ==> result[k] == Resolution(cs, rules, n)[k]
    {
      SortedDecides(cs, rules, n, sorted, k);
    }
  }

  // ---- Apply ----

  /** A node with the properties it does not have explicitly. */
  function Styled(cs: Charset, rules: seq<Rule>, n: Node): (r: Node)
    ensures forall k :: k in n.attrs ==> k in r.attrs && r.attrs[k] == n.attrs[k]
    ensures forall k :: k in r.attrs && k !in n.attrs ==>
              k in Resolution(cs, rules, n) && r.attrs[k] == Resolution(cs, rules, n)[k]
    ensures r.id == n.id && r.order == n.order
  {
    n.(attrs := Resolution(cs, rules, n) + n.attrs)
  }

  /** Adds the missing properties one by one, in any order. */
  method FillIn(explicit: Props, props: Props) returns (attrs: Props)
    ensures attrs == props + explicit
  {
    var todo := props.Keys;
    attrs := explicit;
    while todo != {}
      invariant todo <= props.Keys
      invariant attrs == (props - todo) + explicit
      decreases todo
    {
      var k :| k in todo;
      todo := todo - {k};
      if k !in attrs {
        attrs := attrs[k := props[k]];
      }
    }
    assert props - {} == props;
  }

  method StyleNode(cs: Charset, rules: seq<Rule>, n: Node) returns (r: Node)
    ensures r == Styled(cs, rules, n)
  {
    var props := Resolve(cs, rules, n);
    var attrs := FillIn(n.attrs, props);
    r := n.(attrs := attrs);
  }

  method Apply(cs: Charset, rules: seq<Rule>, nodes: array<Node>)
    modifies nodes
    ensures forall i :: 0 <= i < nodes.Length ==> nodes[i] == Styled(cs, rules, old(nodes[i]))
  {
    hide *;
    for i := 0 to nodes.Length
      invariant forall j :: 0 <= j < i ==> nodes[j] == Styled(cs, rules, old(nodes[j]))
      invariant forall j :: i <= j < nodes.Length ==> nodes[j] == old(nodes[j])
    {
      var n := StyleNode(cs, rules, nodes[i]);
      nodes[i] := n;
    }
  }

  // ---- styling twice ----

  /** A class rule that did not match the node, and does so through the shape or
      the class that the stylesheet gives it. */
  predicate MatchesLate(cs: Charset, rules: seq<Rule>, n: Node, r: Rule) {
    var given := Resolution(cs, rules, n);
    && r.selector.Class? && !Matches(cs, r.selector, n)
    && (|| ("shape" !in n.attrs && "shape" in given && given["shape"] == r.selector.name)
        || ("class" !in n.attrs && "class" in given && HasClass(cs, given["class"], r.selector.name)))
  }

  /** The rule has nothing left to give the node. */
  predicate Exhausted(cs: Charset, rules: seq<Rule>, n: Node, r: Rule) {
    r.props.Keys <= n.attrs.Keys + Resolution(cs, rules, n).Keys
  }

  lemma MatchesAfter(cs: Charset, rules: seq<Rule>, n: Node, r: Rule)
    requires !Matches(cs, r.selector, n)
    ensures Matches(cs, r.selector, Styled(cs, rules, n)) <==> MatchesLate(cs, rules, n, r)
  {
    hide Resolution, HasClass;
  }

  lemma MatchingIsExhausted(cs: Charset, rules: seq<Rule>, n: Node, r: Rule)
    requires r in rules && Matches(cs, r.selector, n)
    ensures Exhausted(cs, rules, n, r)
  {
    hide Matches, Winner, Resolution;
    var i :| 0 <= i < |rules| && rules[i] == r;
    forall k | k in r.props ensures k in Resolution(cs, rules, n) {
      assert Sets(cs, rules[i], n, k);
    }
  }

  /** Styling a node twice is styling it once exactly when the rules that come
      to match through a given shape or class add no further property. */
  lemma {:induction false} ApplyTwice(cs: Charset, rules: seq<Rule>, n: Node)
    ensures Styled(cs, rules, Styled(cs, rules, n)) == Styled(cs, rules, n)
       <==> forall r :: r in rules && MatchesLate(cs, rules, n, r) ==> Exhausted(cs, rules, n, r)
  {
    hide Matches, Winner, Resolution, MatchesLate;
    var m := Styled(cs, rules, n);
    var twice := Styled(cs, rules, m);
    if forall r :: r in rules && MatchesLate(cs, rules, n, r) ==> Exhausted(cs, rules, n, r) {
      forall k | k in Resolution(cs, rules, m) ensures k in m.attrs {
        var w := Winner(cs, rules, m, k).value;
        WinnerSets(cs, rules, m, k);
        ExhaustedAfter(cs, rules, n, rules[w]);
      }
      assert twice.attrs == m.attrs;
    }
    if twice == m {
      forall r | r in rules && MatchesLate(cs, rules, n, r) ensures Exhausted(cs, rules, n, r) {
        LateMatches(cs, rules, n, r);
        MatchingIsExhausted(cs, rules, m, r);
      }
    }
  }

  lemma LateMatches(cs: Charset, rules: seq<Rule>, n: Node, r: Rule)
    requires MatchesLate(cs, rules, n, r)
    ensures Matches(cs, r.selector, Styled(cs, rules, n))
  {
    MatchesAfter(cs, rules, n, r);
  }

  lemma ExhaustedAfter(cs: Charset, rules: seq<Rule>, n: Node, r: Rule)
    requires r in rules && Matches(cs, r.selector, Styled(cs, rules, n))
    requires MatchesLate(cs, rules, n, r) ==> Exhausted(cs, rules, n, r)
    ensures Exhausted(cs, rules, n, r)
  {
    hide Resolution, Exhausted, Styled;
    if Matches(cs, r.selector, n) {
      MatchingIsExhausted(cs, rules, n, r);
    } else {
      MatchesAfter(cs, rules, n, r);
    }
  }

  /** In particular it is when no rule sets shape or class. */
  lemma {:induction false} ApplyIsIdempotent(cs: Charset, rules: seq<Rule>, n: Node)
    requires forall r :: r in rules ==> "shape" !in r.props && "class" !in r.props
    ensures Styled(cs, rules, Styled(cs, rules, n)) == Styled(cs, rules, n)
  {
    hide Matches, Winner, Styled;
    ApplyTwice(cs, rules, n);
    forall r | r in rules ensures !MatchesLate(cs, rules, n, r) {
      GivesNoLooks(cs, rules, n, "shape");
      GivesNoLooks(cs, rules, n, "class");
    }
  }

  lemma GivesNoLooks(cs: Charset, rules: seq<Rule>, n: Node, k: string)
    requires forall r :: r in rules ==> k !in r.props
    ensures k !in Resolution(cs, rules, n)
  {
    hide Matches, Winner;
  }

  /** It can fail: `* { shape: box }` and `.box { x: 1 }` give a bare node its shape
      in the first pass and x only in the second. */
  lemma SecondPassCanAdd(cs: Charset)
    ensures var box, x := Rule(Universal, map["shape" := "box"]), Rule(Class("box"), map["x" := "1"]);
            var n := Node("a", map[], 0);
            && MatchesLate(cs, [box, x], n, x) && !Exhausted(cs, [box, x], n, x)
            && Styled(cs, [box, x], Styled(cs, [box, x], n)) != Styled(cs, [box, x], n)
  {
    var box, x := Rule(Universal, map["shape" := "box"]), Rule(Class("box"), map["x" := "1"]);
    var rules, n := [box, x], Node("a", map[], 0);
    assert rules[0] == box && rules[1] == x && x in rules;
    assert !Matches(cs, x.selector, n) by {
      assert SplitCommas("") == [""];
      assert Trim(cs, "") == "";
    }
    hide Matches, Winner, Styled, Resolution, HasClass;
    GivenByBox(cs, n);
    assert "x" in x.props && "x" !in n.attrs.Keys + Resolution(cs, rules, n).Keys;
    ApplyTwice(cs, rules, n);
  }

  lemma GivenByBox(cs: Charset, n: Node)
    requires !Matches(cs, Class("box"), n)
    ensures var given := Resolution(cs, [Rule(Universal, map["shape" := "box"]),
        Rule(Class("box"), map["x" := "1"])], n);
            "shape" in given && given["shape"] == "box" && "x" !in given
  {
    var box, x := Rule(Universal, map["shape" := "box"]), Rule(Class("box"), map["x" := "1"]);
    var rules := [box, x];
    assert rules[0] == box && rules[1] == x;
    assert Matches(cs, Universal, n);
    hide Matches;
    assert Sets(cs, rules[0], n, "shape") && !Sets(cs, rules[1], n, "shape");
    assert !Sets(cs, rules[0], n, "x") && !Sets(cs, rules[1], n, "x");
    hide Winner, Sets;
    WinnerIs(cs, rules, n, "shape", 0);
    WinnerIs(cs, rules, n, "x", 2);
  }

  /** The winner, from the one rule of all that sets the key, or none. */
  lemma WinnerIs(cs: Charset, rules: seq<Rule>, n: Node, key: string, i: nat)
    requires forall j :: 0 <= j < |rules| ==> (Sets(cs, rules[j], n, key) <==> j == i)
    ensures Winner(cs, rules, n, key) == if i < |rules| then Some(i) else None
  {
    hide Sets;
    var w := Winner(cs, rules, n, key);
    assert w.Some? ==> Decides(cs, rules, n, key, w.value);
  }
}
