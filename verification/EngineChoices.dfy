/** The searches of the engine take the first hit in declaration or priority order,
    and give up only when there is none. */
module EngineChoices {
  import opened Text
  import opened Model
  import opened Runtime
  import opened EngineSpec

  /** The reported gate is unsatisfied, and every gate declared before it is satisfied. */
  lemma {:induction false} FirstUnsatisfiedIsFirst(nodes: seq<Node>, latest: map<string, Status>) returns (i: nat)
    ensures i <= |nodes|
    ensures forall j :: 0 <= j < i ==> GateSatisfied(latest, nodes[j])
    ensures if i < |nodes| then !GateSatisfied(latest, nodes[i]) && FirstUnsatisfied(nodes, latest) == Some(nodes[i])
            else FirstUnsatisfied(nodes, latest) == None
  {
    if nodes == [] || !GateSatisfied(latest, nodes[0]) {
      i := 0;
    } else {
      i := FirstUnsatisfiedIsFirst(nodes[1..], latest);
      i := i + 1;
    }
  }

  predicate Usable(g: Graph, target: string) {
    target != "" && HasNode(g, target)
  }

  /** The retry target is the candidate of highest priority that names a node. */
  lemma {:induction false} FirstPresentIsFirst(g: Graph, candidates: seq<string>) returns (i: nat)
    ensures i <= |candidates|
    ensures forall j :: 0 <= j < i ==> !Usable(g, candidates[j])
    ensures if i < |candidates| then Usable(g, candidates[i]) && FirstPresent(g, candidates) == Some(candidates[i])
            else FirstPresent(g, candidates) == None
  {
    if candidates == [] || Usable(g, candidates[0]) {
      i := 0;
    } else {
      i := FirstPresentIsFirst(g, candidates[1..]);
      i := i + 1;
    }
  }

  /** The convergence node is the first declared node that follows every child. */
  lemma {:induction false} ConvergenceIsFirst(g: Graph, children: seq<string>) returns (i: nat)
    requires children != []
    ensures i <= |g.nodes|
    ensures forall j :: 0 <= j < i ==> !CommonSuccessor(g, children, g.nodes[j].id)
    ensures if i < |g.nodes| then
              CommonSuccessor(g, children, g.nodes[i].id) && FindConvergence(g, children) == Some(g.nodes[i].id)
            else FindConvergence(g, children) == None
  {
    i := FirstCommonIsFirst(g, g.nodes, children);
  }

  lemma {:induction false} FirstCommonIsFirst(g: Graph, nodes: seq<Node>, children: seq<string>) returns (i: nat)
    ensures i <= |nodes|
    ensures forall j :: 0 <= j < i ==> !CommonSuccessor(g, children, nodes[j].id)
    ensures if i < |nodes| then
              CommonSuccessor(g, children, nodes[i].id) && FirstCommon(g, nodes, children) == Some(nodes[i].id)
            else FirstCommon(g, nodes, children) == None
  {
    hide CommonSuccessor;
    if nodes == [] || CommonSuccessor(g, children, nodes[0].id) {
      i := 0;
    } else {
      i := FirstCommonIsFirst(g, nodes[1..], children);
      i := i + 1;
    }
  }

  /** A manager goes on behind its first child that has a successor, over the
      first edge of that child. */
  lemma {:induction false} FirstGrandchildIsFirst(g: Graph, children: seq<string>) returns (i: nat)
    ensures i <= |children|
    ensures forall j :: 0 <= j < i ==> OutEdges(g, children[j]) == []
    ensures if i < |children| then
              OutEdges(g, children[i]) != [] &&
              FirstGrandchild(g, children) == Some((children[i], OutEdges(g, children[i])[0].to))
            else FirstGrandchild(g, children) == None
  {
    hide OutEdges;
    if children == [] || OutEdges(g, children[0]) != [] {
      i := 0;
    } else {
      i := FirstGrandchildIsFirst(g, children[1..]);
      i := i + 1;
    }
  }
}
