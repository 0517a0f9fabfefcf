/** Which of two edges is preferred, stated on the edges and the outcome. */
module SelectorMeaning {
  import opened Text
  import opened Model
  import opened Selector

  predicate HasTrueCondition(p: Platform, c: Choice, e: Edge) {
    var text := Attr(e.attrs, "condition");
    text != "" && Cond.Holds(p.chars, text, Cond.Env(c.status.Text(), c.preferredLabel, c.context))
  }

  predicate HasLabel(c: Choice, e: Edge) {
    c.preferredLabel != "" && Attr(e.attrs, "label") == c.preferredLabel
  }

  /** One of the first k suggestions. */
  predicate AmongFirst(c: Choice, e: Edge, k: nat)
    requires k <= |c.suggested|
  {
    e.to in c.suggested[..k]
  }

  predicate Suggested(c: Choice, e: Edge) {
    e.to in c.suggested
  }

  predicate Unconditional(e: Edge) {
    Attr(e.attrs, "condition") == ""
  }

  /** The edge's weight, zero if it has none or one that is no number. */
  predicate Weighs(p: Platform, e: Edge, w: real) {
    if "weight" in e.attrs && p.parseFloat(e.attrs["weight"]).Some? then p.parseFloat(e.attrs["weight"]) == Some(w)
    else w == 0.0
  }

  /** Neither edge has a condition that holds, nor the label. */
  predicate NoneNamed(p: Platform, c: Choice, a: Edge, b: Edge) {
    && !HasTrueCondition(p, c, a) && !HasTrueCondition(p, c, b) && !HasLabel(c, a) && !HasLabel(c, b)
  }

  /** An edge whose condition holds is preferred to one without; failing that, the
      one with the preferred label; failing that, the one that is suggested, or
      suggested earlier; failing that, an unconditional one to one whose condition
      fails; of two unconditional ones the heavier. Ties go by declaration. */
  lemma Preference(p: Platform, c: Choice, a: Edge, b: Edge)
    ensures HasTrueCondition(p, c, a) && !HasTrueCondition(p, c, b) ==> Better(p, c, a, b)
    ensures HasTrueCondition(p, c, a) && HasTrueCondition(p, c, b) && a.order < b.order ==> Better(p, c, a, b)
    ensures !HasTrueCondition(p, c, a) && !HasTrueCondition(p, c, b) && HasLabel(c, a) ==>
              (!HasLabel(c, b) || a.order < b.order) ==> Better(p, c, a, b)
    ensures NoneNamed(p, c, a, b) && Suggested(c, a) && !Suggested(c, b) ==> Better(p, c, a, b)
    ensures NoneNamed(p, c, a, b) && !Suggested(c, a) && !Suggested(c, b) && Unconditional(a) && !Unconditional(b) ==>
              Better(p, c, a, b)
    ensures NoneNamed(p, c, a, b) && !Suggested(c, a) && !Suggested(c, b) && !Unconditional(a) && !Unconditional(b) ==>
              a.order < b.order ==> Better(p, c, a, b)
  {
    hide Cond.Holds;
  }

  lemma EarlierSuggestion(p: Platform, c: Choice, a: Edge, b: Edge, k: nat)
    requires NoneNamed(p, c, a, b) && k <= |c.suggested|
    requires AmongFirst(c, a, k) && Suggested(c, b) && !AmongFirst(c, b, k)
    ensures Better(p, c, a, b)
  {
    hide Cond.Holds;
    var i := Position(c.suggested, a.to);
    var j := Position(c.suggested, b.to);
    assert c.suggested[j] == b.to;
    assert forall m :: 0 <= m < k ==> c.suggested[m] in c.suggested[..k];
    assert j >= k;
    var m :| 0 <= m < k && c.suggested[..k][m] == a.to;
    assert c.suggested[m] == a.to;
  }

  lemma HeavierEdge(p: Platform, c: Choice, a: Edge, b: Edge, v: real, w: real)
    requires NoneNamed(p, c, a, b) && !Suggested(c, a) && !Suggested(c, b) && Unconditional(a) && Unconditional(b)
    requires Weighs(p, a, v) && Weighs(p, b, w)
    ensures v > w || (v == w && a.order < b.order) ==> Better(p, c, a, b)
  {
    hide Cond.Holds;
  }
}
