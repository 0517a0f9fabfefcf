/** internal/attractor/validate/rules.go, reachabilityRule: the depth-first walk
    from the start node and the nodes it reports. */
module Reachability {
  import opened Model

  ghost predicate Reaches(g: Graph, from: string, to: string) {
    exists p :: IsWalk(g, p) && p[0] == from && p[|p| - 1] == to
  }

  lemma ReachesSelf(g: Graph, id: string)
    ensures Reaches(g, id, id)
  {
    assert IsWalk(g, [id]);
  }

  lemma ReachesOver(g: Graph, from: string, via: string, to: string)
    requires IsEdge(g, from, via) && Reaches(g, via, to)
    ensures Reaches(g, from, to)
  {
    hide IsEdge;
    var p :| IsWalk(g, p) && p[0] == via && p[|p| - 1] == to;
    WalkGrows(g, from, p);
    var q := [from] + p;
    assert q[0] == from && q[|q| - 1] == to;
  }

  /** Every edge out of a member of `inner` stays in `all`. */
  predicate Closed(g: Graph, inner: set<string>, all: set<string>) {
    forall x :: x in inner ==> forall s :: s in Successors(g, x) ==> s in all
  }

  lemma {:induction false} ClosedHasWalks(g: Graph, all: set<string>, p: seq<string>)
    requires Closed(g, all, all) && IsWalk(g, p) && p[0] in all
    ensures p[|p| - 1] in all
    decreases |p|
  {
    hide IsEdge, OutEdges;
    if |p| > 1 {
      assert Hop(g, p, 0);
      assert p[1] in Successors(g, p[0]);
      WalkWithin(g, p, 1, |p|);
      assert p[1..|p|] == p[1..];
      ClosedHasWalks(g, all, p[1..]);
    }
  }

  /** The IDs of the nodes that `from` does not reach, in declaration order. */
  ghost function Unreached(g: Graph, nodes: seq<Node>, from: string): seq<string> {
    if nodes == [] then []
    else
      var last := nodes[|nodes| - 1];
      Unreached(g, nodes[..|nodes| - 1], from) + (if Reaches(g, from, last.id) then [] else [last.id])
  }

  /** Every node that can come up: the start and all edge targets. */
  function Universe(g: Graph, start: string): set<string> {
    {start} + set e | e in g.edges :: e.to
  }

  class Walker {
    const g: Graph
    var reachable: set<string>

    constructor (g: Graph)
      ensures this.g == g && reachable == {}
    {
      this.g, reachable := g, {};
    }

    /** Marks `id` and, unless it was marked, everything behind it. On a cycle the
        marks stop the recursion: each call has fewer unmarked nodes left. */
    method Walk(id: string, ghost universe: set<string>)
      requires id in universe && forall e :: e in g.edges ==> e.to in universe
      modifies this
      ensures old(reachable) <= reachable && id in reachable
      ensures forall x :: x in reachable && x !in old(reachable) ==> Reaches(g, id, x)
      ensures Closed(g, reachable - old(reachable), reachable)
      decreases universe - reachable
    {
      hide Reaches, OutEdges, IsEdge;
      if id in reachable {
        assert reachable - old(reachable) == {};
        return;
      }
      reachable := reachable + {id};
      ReachesSelf(g, id);
      var next := Successors(g, id);
      for i := 0 to |next|
        invariant old(reachable) + {id} <= reachable
        invariant forall j :: 0 <= j < i ==> next[j] in reachable
        invariant forall x :: x in reachable && x !in old(reachable) ==> Reaches(g, id, x)
        invariant Closed(g, reachable - old(reachable) - {id}, reachable)
      {
        assert next[i] in next;
        EdgeTarget(g, id, next[i], universe);
        ghost var before := reachable;
        Walk(next[i], universe);
        forall x | x in reachable && x !in before ensures Reaches(g, id, x) {
          ReachesOver(g, id, next[i], x);
        }
      }
    }

    /** The rule: exactly the nodes that no edge path from the start node reaches,
        in declaration order; nothing when there is no start node. */
    method Apply() returns (diags: seq<string>)
      requires reachable == {}
      modifies this
      ensures StartNode(g).None? ==> diags == []
      ensures StartNode(g).Some? ==> diags == Unreached(g, g.nodes, StartNode(g).value.id)
    {
      hide OutEdges, IsEdge;
      diags := [];
      var start := StartNode(g);
      if start.None? {
        return;
      }
      var from := start.value.id;
      Walk(from, Universe(g, from));
      assert reachable - {} == reachable;
      forall x ensures Reaches(g, from, x) <==> x in reachable {
        if Reaches(g, from, x) {
          var p :| IsWalk(g, p) && p[0] == from && p[|p| - 1] == x;
          ClosedHasWalks(g, reachable, p);
        }
      }
      for i := 0 to |g.nodes|
        invariant diags == Unreached(g, g.nodes[..i], from)
      {
        assert g.nodes[..i + 1][..i] == g.nodes[..i];
        if g.nodes[i].id !in reachable {
          diags := diags + [g.nodes[i].id];
        }
      }
      assert g.nodes[..|g.nodes|] == g.nodes;
    }
  }

  lemma {:induction false} EdgeTarget(g: Graph, a: string, b: string, universe: set<string>)
    requires b in Successors(g, a) && forall e :: e in g.edges ==> e.to in universe
    ensures b in universe && IsEdge(g, a, b)
  {
    hide OutEdges;
    var e :| e in g.edges && e.from == a && e.to == b;
  }
}
