/** internal/attractor/validate/rules.go: what a graph must satisfy to be executed,
    the rules whose findings are errors. Whether its stylesheet parses is left to
    the caller. */
module Validation {
  import opened Text
  import opened Model
  import Cond
  import opened Reachability

  function StartNodes(nodes: seq<Node>): seq<Node> {
    if nodes == [] then []
    else (if Attr(nodes[0].attrs, "shape") == "Mdiamond" then [nodes[0]] else []) + StartNodes(nodes[1..])
  }

  predicate HasExit(g: Graph) {
    exists n :: n in g.nodes && Attr(n.attrs, "shape") == "Msquare"
  }

  predicate EdgesEnd(g: Graph) {
    forall e :: e in g.edges ==> HasNode(g, e.from) && HasNode(g, e.to)
  }

  predicate ConditionsParse(cs: Charset, g: Graph) {
    forall e :: e in g.edges && Attr(e.attrs, "condition") != "" ==> Cond.Parse(cs, Attr(e.attrs, "condition")).Ok?
  }

  predicate NothingBeforeStart(g: Graph, start: Node) {
    forall e :: e in g.edges ==> e.to != start.id
  }

  predicate NothingBehindExits(g: Graph) {
    forall n, e :: n in g.nodes && Attr(n.attrs, "shape") == "Msquare" && e in g.edges ==> e.from != n.id
  }

  ghost predicate Passes(cs: Charset, g: Graph) {
    && |StartNodes(g.nodes)| == 1 && HasExit(g) && EdgesEnd(g) && ConditionsParse(cs, g)
    && StartNode(g).Some? && NothingBeforeStart(g, StartNode(g).value) && NothingBehindExits(g)
    && Unreached(g, g.nodes, StartNode(g).value.id) == []
  }

  lemma {:induction false} AllReached(g: Graph, nodes: seq<Node>, from: string)
    requires forall n :: n in nodes ==> Reaches(g, from, n.id)
    ensures Unreached(g, nodes, from) == []
  {
    hide Reaches;
    if nodes != [] {
      AllReached(g, nodes[..|nodes| - 1], from);
    }
  }
}
