/** What a single condition says, on its text: which value it looks at and when it
    holds. Conjunctions come down to this by Cond.AndMeansBoth. */
module CondMeaning {
  import opened Text
  import opened Cond

  /** A key or value as it stands between operators. */
  predicate Word(cs: Charset, w: string) {
    && w != "" && !cs.space(w[0]) && !cs.space(w[|w| - 1])
    && forall i :: 0 <= i < |w| ==> w[i] !in "&=!"
  }

  lemma WordIsTrimmed(cs: Charset, w: string)
    requires w != "" && !cs.space(w[0]) && !cs.space(w[|w| - 1])
    ensures Trim(cs, w) == w
  {
  }

  lemma {:induction false} NoSeparator(s: string)
    requires forall i :: 0 <= i < |s| ==> s[i] != '&'
    ensures SplitAnd(s) == [s]
    decreases |s|
  {
    if s != "" {
      NoSeparator(s[1..]);
      assert [s[0]] + s[1..] == s;
    }
  }

  lemma IndexIs(s: string, p: string, at: nat)
    requires OccursAt(s, p, at) && forall j :: 0 <= j < at ==> !OccursAt(s, p, j)
    ensures Index(s, p) == Some(at)
  {
  }

  lemma IndexIsNone(s: string, p: string)
    requires forall j :: 0 <= j ==> !OccursAt(s, p, j)
    ensures Index(s, p) == None
  {
  }

  lemma OccursStarts(s: string, p: string, j: int)
    requires p != ""
    ensures OccursAt(s, p, j) ==> 0 <= j < |s| && s[j] == p[0]
  {
    assert OccursAt(s, p, j) ==> s[j..j + |p|][0] == s[j];
  }

  /** No part of a word is "=" or "!=". */
  lemma NothingInWord(cs: Charset, w: string, rest: string, p: string, j: int)
    requires Word(cs, w) && p in ["=", "!="] && 0 <= j < |w|
    ensures !OccursAt(w + rest, p, j)
  {
    OccursStarts(w + rest, p, j);
    assert (w + rest)[j] == w[j] && p[0] in "&=!";
  }

  lemma EqualClause(cs: Charset, k: string, v: string)
    requires Word(cs, k) && Word(cs, v)
    ensures ParseClause(cs, k + "=" + v) == Ok(Clause(k, Equal, v))
  {
    hide Index, Trim;
    var s := k + "=" + v;
    assert forall j :: 0 <= j < |s| ==> s[j] == if j < |k| then k[j] else if j == |k| then '=' else v[j - |k| - 1];
    forall j | 0 <= j ensures !OccursAt(s, "!=", j) {
      OccursStarts(s, "!=", j);
    }
    IndexIsNone(s, "!=");
    assert s[|k|..|k| + 1] == "=";
    forall j | 0 <= j < |k| ensures !OccursAt(s, "=", j) {
      assert s == k + ("=" + v);
      NothingInWord(cs, k, "=" + v, "=", j);
    }
    IndexIs(s, "=", |k|);
    assert s[..|k|] == k && s[|k| + 1..] == v;
    WordIsTrimmed(cs, k);
    WordIsTrimmed(cs, v);
  }

  lemma NotEqualClause(cs: Charset, k: string, v: string)
    requires Word(cs, k) && Word(cs, v)
    ensures ParseClause(cs, k + "!=" + v) == Ok(Clause(k, NotEqual, v))
  {
    hide Index, Trim;
    var s := k + "!=" + v;
    assert s[|k|..|k| + 2] == "!=";
    forall j | 0 <= j < |k| ensures !OccursAt(s, "!=", j) {
      assert s == k + ("!=" + v);
      NothingInWord(cs, k, "!=" + v, "!=", j);
    }
    IndexIs(s, "!=", |k|);
    assert s[..|k|] == k && s[|k| + 2..] == v;
    WordIsTrimmed(cs, k);
    WordIsTrimmed(cs, v);
  }

  lemma TruthyClause(cs: Charset, k: string)
    requires Word(cs, k)
    ensures ParseClause(cs, k) == Ok(Clause(k, Truthy, ""))
  {
    hide Index;
    assert k + "" == k;
    forall j, p | 0 <= j && p in ["=", "!="] ensures !OccursAt(k, p, j) {
      if j < |k| { NothingInWord(cs, k, "", p, j); }
    }
    IndexIsNone(k, "=");
    IndexIsNone(k, "!=");
  }

  /** A text of one part holds when its clause does. */
  lemma HoldsAsClause(cs: Charset, s: string, c: Clause, env: Env)
    requires s != "" && !cs.space(s[0]) && !cs.space(s[|s| - 1]) && forall i :: 0 <= i < |s| ==> s[i] != '&'
    requires ParseClause(cs, s) == Ok(c)
    ensures Holds(cs, s, env) <==> EvalClause(c, env)
  {
    hide ParseClause, Trim, SplitAnd, EvalClause;
    WordIsTrimmed(cs, s);
    NoSeparator(s);
    assert [s][1..] == [] && [s][0] == s;
    assert ParseClauses(cs, [s][1..]) == Ok([]) && [c] + [] == [c];
    assert ParseClauses(cs, [s]) == Ok([c]);
    assert c in [c];
  }

  /** The three forms, for a key that stands for `actual`. */
  predicate Means(cs: Charset, k: string, v: string, env: Env, actual: string) {
    && (Holds(cs, k + "=" + v, env) <==> actual == v)
    && (Holds(cs, k + "!=" + v, env) <==> actual != v)
    && (Holds(cs, k, env) <==> actual != "")
  }

  lemma KeyMeans(cs: Charset, k: string, v: string, env: Env, actual: string)
    requires Word(cs, k) && Word(cs, v) && actual == Resolve(k, env)
    ensures Means(cs, k, v, env, actual)
  {
    hide ParseClause, Holds, Resolve;
    var e, n := k + "=" + v, k + "!=" + v;
    EqualClause(cs, k, v);
    assert forall i :: 0 <= i < |e| ==> e[i] == if i < |k| then k[i] else if i == |k| then '=' else v[i - |k| - 1];
    HoldsAsClause(cs, e, Clause(k, Equal, v), env);
    NotEqualClause(cs, k, v);
    assert forall i :: 0 <= i < |n| ==>
      n[i] == if i < |k| then k[i] else if i == |k| then '!' else if i == |k| + 1 then '=' else v[i - |k| - 2];
    HoldsAsClause(cs, n, Clause(k, NotEqual, v), env);
    TruthyClause(cs, k);
    HoldsAsClause(cs, k, Clause(k, Truthy, ""), env);
  }

  /** "outcome" is the status of the outcome. */
  lemma OutcomeMeans(cs: Charset, v: string, env: Env)
    requires Word(cs, "outcome") && Word(cs, v)
    ensures Holds(cs, "outcome=" + v, env) <==> env.outcome == v
    ensures Holds(cs, "outcome!=" + v, env) <==> env.outcome != v
    ensures Holds(cs, "outcome", env) <==> env.outcome != ""
  {
    hide Holds, Word;
    KeyMeans(cs, "outcome", v, env, env.outcome);
    assert "outcome" + "=" == "outcome=" && "outcome" + "!=" == "outcome!=";
  }

  /** "preferred_label" is the label that the outcome prefers. */
  lemma PreferredLabelMeans(cs: Charset, v: string, env: Env)
    requires Word(cs, "preferred_label") && Word(cs, v)
    ensures Holds(cs, "preferred_label=" + v, env) <==> env.preferredLabel == v
    ensures Holds(cs, "preferred_label!=" + v, env) <==> env.preferredLabel != v
    ensures Holds(cs, "preferred_label", env) <==> env.preferredLabel != ""
  {
    hide Holds, Word;
    KeyMeans(cs, "preferred_label", v, env, env.preferredLabel);
    assert "preferred_label" + "=" == "preferred_label=" && "preferred_label" + "!=" == "preferred_label!=";
  }

  /** Any other key is a context key, with or without "context." in front. A key
      that the context does not have equals nothing. */
  lemma ContextMeans(cs: Charset, key: string, v: string, env: Env)
    requires Word(cs, "context." + key) && Word(cs, v)
    ensures var k := "context." + key;
            && (Holds(cs, k + "=" + v, env) <==> key in env.context && env.context[key] == v)
            && (Holds(cs, k + "!=" + v, env) <==> !(key in env.context && env.context[key] == v))
            && (Holds(cs, k, env) <==> key in env.context && env.context[key] != "")
  {
    hide Holds;
    var k := "context." + key;
    assert k[..8] == "context." && k[8..] == key;
    assert k[7] == '.' && "outcome" != k && k[0] == 'c';
    KeyMeans(cs, k, v, env, if key in env.context then env.context[key] else "");
  }

  lemma BareKeyMeans(cs: Charset, key: string, v: string, env: Env)
    requires Word(cs, key) && Word(cs, v)
    requires key != "outcome" && key != "preferred_label" && !HasPrefix(key, "context.")
    ensures Holds(cs, key + "=" + v, env) <==> key in env.context && env.context[key] == v
    ensures Holds(cs, key + "!=" + v, env) <==> !(key in env.context && env.context[key] == v)
    ensures Holds(cs, key, env) <==> key in env.context && env.context[key] != ""
  {
    hide Holds;
    KeyMeans(cs, key, v, env, if key in env.context then env.context[key] else "");
  }
}
