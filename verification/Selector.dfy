/** internal/attractor/edge/selector.go: which out-edge to follow. */
module Selector {
  import opened Text
  import opened Model
  import opened Runtime
  import Cond

  /** What the Go standard library decides for the pipeline: the character
      classes, and strconv.ParseFloat on the texts of weights (None for an
      error). NaN and the infinities are not among its values. */
  datatype Platform = Platform(chars: Charset, parseFloat: string -> Option<real>)

  /** Everything a choice depends on besides the edges. */
  datatype Choice = Choice(status: Status, preferredLabel: string, suggested: seq<string>, context: map<string, string>)

  function EnvOf(c: Choice): Cond.Env {
    Cond.Env(c.status.Text(), c.preferredLabel, c.context)
  }

  predicate HasCondition(e: Edge) {
    Attr(e.attrs, "condition") != ""
  }

  function Weight(p: Platform, e: Edge): real {
    if "weight" !in e.attrs then 0.0
    else match p.parseFloat(e.attrs["weight"])
         case Some(w) => w
         case None => 0.0
  }

  function Position(ids: seq<string>, id: string): (i: nat)
    ensures i <= |ids| && (i < |ids| ==> ids[i] == id)
    ensures forall j :: 0 <= j < i ==> ids[j] != id
    ensures i == |ids| <==> id !in ids
  {
    if ids == [] then 0 else if ids[0] == id then 0 else 1 + Position(ids[1..], id)
  }

  // ---- the five tiers as an order on edges ----

  predicate ConditionHolds(p: Platform, c: Choice, e: Edge) {
    HasCondition(e) && Cond.Holds(p.chars, Attr(e.attrs, "condition"), EnvOf(c))
  }

  function Tier(p: Platform, c: Choice, e: Edge): nat {
    if ConditionHolds(p, c, e) then 1
    else if c.preferredLabel != "" && Attr(e.attrs, "label") == c.preferredLabel then 2
    else if e.to in c.suggested then 3
    else if !HasCondition(e) then 4
    else 5
  }

  /** The criterion inside a tier, smaller first: tier 3 goes by the place of the
      target among the suggestions, tier 4 by the weight. */
  function Criterion(p: Platform, c: Choice, e: Edge): real {
    var t := Tier(p, c, e);
    if t == 3 then Position(c.suggested, e.to) as real
    else if t == 4 then -Weight(p, e)
    else 0.0
  }

  /** The tier decides, then the criterion of the tier, then declaration order. */
  predicate Better(p: Platform, c: Choice, a: Edge, b: Edge) {
    var ta, tb, ca, cb := Tier(p, c, a), Tier(p, c, b), Criterion(p, c, a), Criterion(p, c, b);
    ta < tb || (ta == tb && (ca < cb || (ca == cb && a.order < b.order)))
  }

  predicate BestOf(p: Platform, c: Choice, edges: seq<Edge>, best: Edge) {
    best in edges && forall e :: e in edges && e != best ==> Better(p, c, best, e)
  }

  predicate DistinctOrders(edges: seq<Edge>) {
    forall i, j :: 0 <= i < j < |edges| ==> edges[i].order < edges[j].order
  }

  /** The best edge, if there is any edge. */
  function Pick(p: Platform, c: Choice, edges: seq<Edge>): (r: Option<Edge>)
    ensures r.None? <==> edges == []
    ensures r.Some? ==> r.value in edges
    ensures r.Some? && DistinctOrders(edges) ==> BestOf(p, c, edges, r.value)
  {
    if edges == [] then None
    else
      hide Better, BestOf, DistinctOrders;
      var last := edges[|edges| - 1];
      var front := edges[..|edges| - 1];
      FrontIsDistinct(edges);
      match Pick(p, c, front)
      case None =>
        OnlyIsBest(p, c, edges);
        Some(last)
      case Some(e) =>
        BestGrows(p, c, edges, e);
        Some(if Better(p, c, last, e) then last else e)
  }

  lemma FrontIsDistinct(edges: seq<Edge>)
    requires edges != []
    ensures DistinctOrders(edges) ==> DistinctOrders(edges[..|edges| - 1])
  {
  }

  lemma OnlyIsBest(p: Platform, c: Choice, edges: seq<Edge>)
    requires edges != [] && edges[..|edges| - 1] == []
    ensures BestOf(p, c, edges, edges[|edges| - 1])
  {
    assert edges == [edges[0]];
  }

  lemma BestGrows(p: Platform, c: Choice, edges: seq<Edge>, e: Edge)
    requires edges != []
    ensures var n := |edges| - 1;
            DistinctOrders(edges) && BestOf(p, c, edges[..n], e) ==>
              BestOf(p, c, edges, if Better(p, c, edges[n], e) then edges[n] else e)
  {
    var n := |edges| - 1;
    var front, last := edges[..n], edges[n];
    if DistinctOrders(edges) && BestOf(p, c, front, e) {
      assert edges == front + [last];
      var k :| 0 <= k < n && front[k] == e;
      assert edges[k] == e && e.order < last.order;
      EarlierOrBetter(p, c, e, last);
      hide Better, DistinctOrders;
      if Better(p, c, last, e) {
        forall x | x in edges && x != last ensures Better(p, c, last, x) {
          if x != e { BetterTransitive(p, c, last, e, x); }
        }
      }
    }
  }

  lemma EarlierOrBetter(p: Platform, c: Choice, a: Edge, b: Edge)
    requires a.order < b.order
    ensures Better(p, c, a, b) || Better(p, c, b, a)
  {
    hide Tier, Criterion;
  }

  lemma BetterTransitive(p: Platform, c: Choice, x: Edge, y: Edge, z: Edge)
    requires Better(p, c, x, y) && Better(p, c, y, z)
    ensures Better(p, c, x, z)
  {
    hide Tier, Criterion;
  }

  lemma BestIsUnique(p: Platform, c: Choice, edges: seq<Edge>, a: Edge, b: Edge)
    requires BestOf(p, c, edges, a) && BestOf(p, c, edges, b)
    ensures a == b
  {
  }

  // ---- the staged search of the code ----

  predicate Heavier(p: Platform, a: Edge, b: Edge) {
    Weight(p, a) > Weight(p, b) || (Weight(p, a) == Weight(p, b) && a.order < b.order)
  }

  predicate SortedByWeight(p: Platform, s: seq<Edge>) {
    forall i, j :: 0 <= i < j < |s| ==> !Heavier(p, s[j], s[i])
  }

  function InsertByWeight(p: Platform, e: Edge, s: seq<Edge>): (out: seq<Edge>)
    requires SortedByWeight(p, s)
    ensures SortedByWeight(p, out)
    ensures forall x :: x in out <==> x == e || x in s
  {
    if s == [] then [e]
    else if Heavier(p, e, s[0]) then [e] + s
    else
      var tail := InsertByWeight(p, e, s[1..]);
      assert s == [s[0]] + s[1..];
      assert forall x :: x in tail ==> !Heavier(p, x, s[0]);
      [s[0]] + tail
  }

  /** sort.Slice by weight, heaviest first, then by Order. */
  function SortByWeight(p: Platform, s: seq<Edge>): (out: seq<Edge>)
    ensures SortedByWeight(p, out)
    ensures forall x :: x in out <==> x in s
  {
    if s == [] then []
    else
      assert s == [s[0]] + s[1..];
      InsertByWeight(p, s[0], SortByWeight(p, s[1..]))
  }

  method FilterUnconditional(edges: seq<Edge>) returns (out: seq<Edge>)
    ensures forall e :: e in out <==> e in edges && !HasCondition(e)
  {
    out := [];
    for i := 0 to |edges|
      invariant forall e :: e in out <==> e in edges[..i] && !HasCondition(e)
    {
      if Attr(edges[i].attrs, "condition") == "" {
        out := out + [edges[i]];
      }
    }
    assert edges[..|edges|] == edges;
  }

  /** The first edge of a tier without a criterion, when no edge is in an earlier
      tier, is the best edge. */
  lemma FirstOfTierIsPicked(p: Platform, c: Choice, edges: seq<Edge>, i: nat)
    requires DistinctOrders(edges) && i < |edges|
    requires Tier(p, c, edges[i]) in {1, 2, 5}
    requires forall e :: e in edges ==> Tier(p, c, e) >= Tier(p, c, edges[i])
    requires forall j :: 0 <= j < i ==> Tier(p, c, edges[j]) != Tier(p, c, edges[i])
    ensures Pick(p, c, edges) == Some(edges[i])
  {
    hide Tier, Better, Pick, ConditionHolds;
    forall e | e in edges && e != edges[i] ensures Better(p, c, edges[i], e) {
      var j :| 0 <= j < |edges| && edges[j] == e;
      assert j < i ==> Tier(p, c, e) > Tier(p, c, edges[i]);
      TierDecides(p, c, edges[i], e);
    }
    BestIsUnique(p, c, edges, edges[i], Pick(p, c, edges).value);
  }

  lemma TierDecides(p: Platform, c: Choice, a: Edge, b: Edge)
    requires Tier(p, c, a) < Tier(p, c, b) ||
             (Tier(p, c, a) == Tier(p, c, b) && Tier(p, c, a) in {1, 2, 5} && a.order < b.order)
    ensures Better(p, c, a, b)
  {
    hide Tier;
  }

  lemma {:induction false} FirstSuggestedIsPicked(p: Platform, c: Choice, edges: seq<Edge>, k: nat, i: nat)
    requires DistinctOrders(edges) && i < |edges| && k < |c.suggested|
    requires forall e :: e in edges ==> Tier(p, c, e) > 2 && e.to !in c.suggested[..k]
    requires edges[i].to == c.suggested[k]
    requires forall j :: 0 <= j < i ==> edges[j].to != c.suggested[k]
    ensures Pick(p, c, edges) == Some(edges[i])
  {
    forall e | e in edges && e.to in c.suggested
      ensures Position(c.suggested, e.to) >= k
      ensures Position(c.suggested, e.to) == k ==> e.to == c.suggested[k]
    {
      assert forall i :: 0 <= i < k ==> c.suggested[i] in c.suggested[..k];
    }
    assert Position(c.suggested, edges[i].to) == k;
    forall e | e in edges && e != edges[i] ensures Better(p, c, edges[i], e) {
      var j :| 0 <= j < |edges| && edges[j] == e;
    }
    BestIsUnique(p, c, edges, edges[i], Pick(p, c, edges).value);
  }

  /** The stages of the code, in its order, over the sorted out-edges. The result
      is the best edge of the five-tier order, and there is none only when there
      are no edges. */
  method Select(p: Platform, c: Choice, edges: seq<Edge>) returns (r: Option<Edge>)
    requires DistinctOrders(edges)
    ensures r == Pick(p, c, edges)
    ensures r.None? <==> edges == []
    ensures r.Some? ==> BestOf(p, c, edges, r.value)
  {
    if |edges| == 0 {
      return None;
    }

    hide Tier, Pick;
    r := SelectByCondition(p, c, edges);
    if r.Some? {
      return;
    }
    r := SelectByLabel(p, c, edges);
    if r.Some? {
      return;
    }
    // Tiers 1 and 2 are empty from here on.
    r := SelectSuggested(p, c, edges);
    if r.Some? {
      return;
    }

    // Tier 3 is empty too; tier 4 is the edges without a condition.
    var unconditional := FilterUnconditional(edges);
    if |unconditional| > 0 {
      var sorted := SortByWeight(p, unconditional);
      assert unconditional[0] in sorted;
      HeaviestIsBest(p, c, edges, unconditional, sorted);
      BestIsUnique(p, c, edges, sorted[0], Pick(p, c, edges).value);
      return Some(sorted[0]);
    }

    // Every edge has a condition that fails: all are in tier 5.
    forall e | e in edges ensures Tier(p, c, e) == 5 {
      assert e !in unconditional;
      LastTier(p, c, e);
    }
    FirstOfTierIsPicked(p, c, edges, 0);
    return Some(edges[0]);
  }

  lemma LastTier(p: Platform, c: Choice, e: Edge)
    requires Tier(p, c, e) > 3 && HasCondition(e)
    ensures Tier(p, c, e) == 5
  {
  }

  /** The first edge whose condition holds is the best of tier 1. */
  method SelectByCondition(p: Platform, c: Choice, edges: seq<Edge>) returns (r: Option<Edge>)
    requires DistinctOrders(edges)
    ensures r.Some? ==> r == Pick(p, c, edges)
    ensures r.None? ==> forall e :: e in edges ==> Tier(p, c, e) > 1
  {
    hide Pick;
    for i := 0 to |edges|
      invariant forall j :: 0 <= j < i ==> Tier(p, c, edges[j]) > 1
    {
      var text := Attr(edges[i].attrs, "condition");
      if text != "" && Cond.Holds(p.chars, text, EnvOf(c)) {
        FirstOfTierIsPicked(p, c, edges, i);
        return Some(edges[i]);
      }
    }
    return None;
  }

  /** With tier 1 empty, the first edge with the label is the best of tier 2. */
  method SelectByLabel(p: Platform, c: Choice, edges: seq<Edge>) returns (r: Option<Edge>)
    requires DistinctOrders(edges)
    requires forall e :: e in edges ==> Tier(p, c, e) > 1
    ensures r.Some? ==> r == Pick(p, c, edges)
    ensures r.None? ==> forall e :: e in edges ==> Tier(p, c, e) > 2
  {
    hide Pick, ConditionHolds;
    if c.preferredLabel != "" {
      for i := 0 to |edges|
        invariant forall j :: 0 <= j < i ==> Tier(p, c, edges[j]) > 2
      {
        if Attr(edges[i].attrs, "label") == c.preferredLabel {
          FirstOfTierIsPicked(p, c, edges, i);
          return Some(edges[i]);
        }
      }
    }
    return None;
  }

  /** With tiers 1 and 2 empty, the nested search finds the best of tier 3. */
  method SelectSuggested(p: Platform, c: Choice, edges: seq<Edge>) returns (r: Option<Edge>)
    requires DistinctOrders(edges)
    requires forall e :: e in edges ==> Tier(p, c, e) > 2
    ensures r.Some? ==> r == Pick(p, c, edges)
    ensures r.None? ==> forall e :: e in edges ==> Tier(p, c, e) > 3
  {
    for k := 0 to |c.suggested|
      invariant forall e :: e in edges ==> e.to !in c.suggested[..k]
    {
      for i := 0 to |edges|
        invariant forall j :: 0 <= j < i ==> edges[j].to != c.suggested[k]
      {
        if edges[i].to == c.suggested[k] {
          FirstSuggestedIsPicked(p, c, edges, k, i);
          return Some(edges[i]);
        }
      }
      assert c.suggested[..k + 1] == c.suggested[..k] + [c.suggested[k]];
    }
    assert c.suggested[..|c.suggested|] == c.suggested;
    return None;
  }

  lemma HeaviestIsBest(p: Platform, c: Choice, edges: seq<Edge>, unconditional: seq<Edge>, sorted: seq<Edge>)
    requires DistinctOrders(edges)
    requires forall e :: e in edges ==> Tier(p, c, e) > 3
    requires forall e :: e in unconditional <==> e in edges && !HasCondition(e)
    requires forall e :: e in sorted <==> e in unconditional
    requires sorted != [] && SortedByWeight(p, sorted)
    ensures BestOf(p, c, edges, sorted[0])
  {
    var h := sorted[0];
    assert h in unconditional && h in edges;
    forall e | e in edges && e != h ensures Better(p, c, h, e) {
      if !HasCondition(e) {
        assert e in unconditional && e in sorted;
        assert !Heavier(p, e, h);
        var i :| 0 <= i < |edges| && edges[i] == e;
        var j :| 0 <= j < |edges| && edges[j] == h;
        assert e.order != h.order;
      }
    }
  }

  /** The selection of the engine: over the out-edges of `id`. */
  function SelectEdge(p: Platform, g: Graph, id: string, c: Choice): (r: Option<Edge>)
    ensures r.None? <==> OutEdges(g, id) == []
    ensures r.Some? ==> r.value in g.edges && r.value.from == id
  {
    Pick(p, c, OutEdges(g, id))
  }

  /** On a well-formed graph the engine follows the one out-edge that beats every
      other out-edge of the node. */
  lemma {:induction false} SelectEdgeIsBest(p: Platform, g: Graph, id: string, c: Choice)
    requires WellFormed(g) && OutEdges(g, id) != []
    ensures BestOf(p, c, OutEdges(g, id), SelectEdge(p, g, id, c).value)
  {
    OutEdgesInDeclarationOrder(g, id);
  }
}
