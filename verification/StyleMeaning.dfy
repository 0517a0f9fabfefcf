/** What a stylesheet means, rule by rule and class by class. */
module StyleMeaning {
  import opened Text
  import opened Model
  import opened Stylesheet

  /** A rule by ID beats one by class, which beats the universal one; of two of the
      same kind the later wins. */
  predicate Beats(a: Rule, i: nat, b: Rule, j: nat) {
    match (a.selector, b.selector)
    case (ByID(_), ByID(_)) => i >= j
    case (ByID(_), _) => true
    case (Class(_), ByID(_)) => false
    case (Class(_), Class(_)) => i >= j
    case (Class(_), Universal) => true
    case (Universal, Universal) => i >= j
    case (Universal, _) => false
  }

  /** A property comes from the matching rule that sets it and beats every other. */
  lemma WinnerBeatsAll(cs: Charset, rules: seq<Rule>, n: Node, key: string, j: nat)
    requires j < |rules| && Sets(cs, rules[j], n, key)
    ensures key in Resolution(cs, rules, n)
    ensures exists i :: 0 <= i < |rules| && Sets(cs, rules[i], n, key) && Beats(rules[i], i, rules[j], j)
              && Resolution(cs, rules, n)[key] == rules[i].props[key]
  {
    hide Resolution, Matches;
    var w := Winner(cs, rules, n, key);
    assert w.Some?;
    assert Decides(cs, rules, n, key, w.value);
    assert Beats(rules[w.value], w.value, rules[j], j);
  }

  // ---- selectors ----

  lemma IDMatchesOne(cs: Charset, n: Node, id: string)
    ensures Matches(cs, Universal, n)
    ensures Matches(cs, ByID(id), n) <==> n.id == id
  {
  }

  function JoinCommas(names: seq<string>): string {
    if names == [] then ""
    else if |names| == 1 then names[0]
    else names[0] + "," + JoinCommas(names[1..])
  }

  lemma {:induction false} SplitName(name: string, rest: string)
    requires ',' !in name
    ensures SplitCommas(name) == [name]
    ensures SplitCommas(name + "," + rest) == [name] + SplitCommas(rest)
  {
    var t := name + "," + rest;
    if name == "" {
      assert t == "," + rest && t[1..] == rest;
    } else {
      assert ',' !in name[1..];
      SplitName(name[1..], rest);
      assert t[1..] == name[1..] + "," + rest && t[0] == name[0];
      assert name[0] in name;
      assert [name[0]] + name[1..] == name;
      assert ([name[1..]] + SplitCommas(rest))[1..] == SplitCommas(rest);
    }
  }

  lemma {:induction false} SplitNames(names: seq<string>)
    requires names != [] && forall i :: 0 <= i < |names| ==> ',' !in names[i]
    ensures SplitCommas(JoinCommas(names)) == names
  {
    if |names| == 1 {
      SplitName(names[0], "");
    } else {
      SplitNames(names[1..]);
      SplitName(names[0], JoinCommas(names[1..]));
    }
  }

  /** A class selector matches the shape, or any name in the class list, space around
      the names aside. */
  lemma ClassMatches(cs: Charset, n: Node, name: string, names: seq<string>)
    requires names != [] && forall i :: 0 <= i < |names| ==> ',' !in names[i]
    requires Attr(n.attrs, "class") == JoinCommas(names)
    ensures Matches(cs, Class(name), n) <==>
              Attr(n.attrs, "shape") == name || exists i :: 0 <= i < |names| && Trim(cs, names[i]) == name
  {
    hide Trim, JoinCommas;
    SplitNames(names);
  }
}
