/** On an acyclic graph the loop ends, whatever the handlers answer, within
    (R + 1) * |Nodes| iterations, R being the sum of the retry allowances. */
module EngineTermination {
  import opened Text
  import opened Model
  import opened EngineSpec
  import opened EngineMoves
  import opened EngineBudget

  // ---- acyclic graphs and longest paths ----

  /** No walk with at least one edge comes back to where it began. */
  ghost predicate Acyclic(g: Graph) {
    forall p :: IsWalk(g, p) && |p| > 1 ==> p[0] != p[|p| - 1]
  }

  /** The number of edges of the longest walk from `id` with at most k edges. */
  function Height(g: Graph, id: string, k: nat): nat
    decreases k, 0
  {
    if k == 0 then 0 else HeightOver(g, Successors(g, id), k - 1)
  }

  function HeightOver(g: Graph, ids: seq<string>, k: nat): (h: nat)
    ensures forall id :: id in ids ==> Height(g, id, k) < h
    decreases k, 1 + |ids|
  {
    if ids == [] then 0
    else
      var h, rest := 1 + Height(g, ids[0], k), HeightOver(g, ids[1..], k);
      if h > rest then h else rest
  }

  lemma {:induction false} HeightIsWalked(g: Graph, id: string, k: nat) returns (p: seq<string>)
    ensures IsWalk(g, p) && p[0] == id && |p| == Height(g, id, k) + 1
    decreases k, 0
  {
    hide OutEdges, IsEdge;
    p := [id];
    if k > 0 {
      p := HeightOverIsWalked(g, id, Successors(g, id), k - 1);
    }
  }

  lemma {:induction false} HeightOverIsWalked(g: Graph, from: string, ids: seq<string>, k: nat) returns (p: seq<string>)
    requires forall id :: id in ids ==> IsEdge(g, from, id)
    ensures IsWalk(g, p) && p[0] == from && |p| == HeightOver(g, ids, k) + 1
    decreases k, 1 + |ids|
  {
    hide IsEdge;
    p := [from];
    if ids != [] {
      var q := HeightIsWalked(g, ids[0], k);
      var r := HeightOverIsWalked(g, from, ids[1..], k);
      assert ids[0] in ids;
      WalkGrows(g, from, q);
      p := if |q| + 1 > |r| then [from] + q else r;
    }
  }

  lemma {:induction false} WalkIsCounted(g: Graph, p: seq<string>, k: nat)
    requires IsWalk(g, p) && |p| - 1 <= k
    ensures Height(g, p[0], k) >= |p| - 1
    decreases |p|
  {
    hide IsEdge, OutEdges;
    if |p| > 1 {
      assert Hop(g, p, 0);
      WalkWithin(g, p, 1, |p|);
      assert p[1..|p|] == p[1..];
      WalkIsCounted(g, p[1..], k - 1);
      assert p[1] in Successors(g, p[0]);
    }
  }

  function IDs(nodes: seq<Node>): (ids: set<string>)
    ensures |ids| <= |nodes|
    ensures forall i :: 0 <= i < |nodes| ==> nodes[i].id in ids
  {
    if nodes == [] then {} else {nodes[0].id} + IDs(nodes[1..])
  }

  lemma {:induction false} DistinctFit(p: seq<string>, ids: set<string>)
    requires forall i, j :: 0 <= i < j < |p| ==> p[i] != p[j]
    requires forall i :: 0 <= i < |p| ==> p[i] in ids
    ensures |p| <= |ids|
  {
    if p != [] {
      DistinctFit(p[1..], ids - {p[0]});
    }
  }

  lemma WalkIsShort(g: Graph, p: seq<string>)
    requires WellFormed(g) && Acyclic(g) && IsWalk(g, p) && HasNode(g, p[0])
    ensures |p| <= |g.nodes|
  {
    hide IsEdge;
    forall i, j | 0 <= i < j < |p| ensures p[i] != p[j] {
      WalkWithin(g, p, i, j + 1);
      var q := p[i..j + 1];
      assert q[0] != q[|q| - 1];
    }
    forall i | 0 <= i < |p| ensures p[i] in IDs(g.nodes) {
      if i > 0 {
        assert Hop(g, p, i - 1);
        EdgeEndsArePresent(g, p[i - 1], p[i]);
      }
    }
    DistinctFit(p, IDs(g.nodes));
  }

  /** The longest path that is left from a node. */
  function Rank(g: Graph, id: string): nat {
    Height(g, id, |g.nodes|)
  }

  lemma {:induction false} RankBelowSize(g: Graph, id: string)
    requires WellFormed(g) && Acyclic(g) && HasNode(g, id)
    ensures Rank(g, id) < |g.nodes|
  {
    hide WellFormed, Acyclic;
    var p := HeightIsWalked(g, id, |g.nodes|);
    WalkIsShort(g, p);
  }

  lemma {:induction false} RankDropsAlongEdges(g: Graph, a: string, b: string)
    requires WellFormed(g) && Acyclic(g) && IsEdge(g, a, b)
    ensures Rank(g, a) > Rank(g, b)
  {
    hide WellFormed, Acyclic, HasNode, IsEdge, OutEdges, IsWalk;
    EdgeEndsArePresent(g, a, b);
    RankBelowSize(g, b);
    var p := HeightIsWalked(g, b, |g.nodes|);
    WalkIsCounted(g, p, |g.nodes| - 1);
    assert b in Successors(g, a);
  }

  // ---- the measure ----

  /** Retries that are still allowed, over all nodes. */
  function Unspent(g: Graph, st: State): int {
    WeightedAllowance(g, g.nodes, EachOnce()) - Weighted(g.nodes, st.retries, EachOnce())
  }

  function Measure(g: Graph, st: State): int {
    Unspent(g, st) * |g.nodes| + Rank(g, st.current) + 1
  }

  ghost predicate Bounds(g: Graph, st: State) {
    Placed(g, st) && WithinBudget(g, st)
  }

  lemma {:induction false} MeasurePositive(g: Graph, st: State)
    requires WithinBudget(g, st)
    ensures Measure(g, st) >= 1
  {
    hide Rank, Allowance;
    WeightedWithinAllowance(g, g.nodes, st.retries, EachOnce());
    ProductMonotone(0, Unspent(g, st), |g.nodes|);
  }

  lemma {:induction false} MoveShrinks(g: Graph, st: State, s: StepResult)
    requires WellFormed(g) && Acyclic(g)
    requires StepLegal(g, st, s) && s.verdict.Running? && Placed(g, st)
    ensures !IsRetryMove(s.move) ==> Rank(g, s.state.current) < Rank(g, st.current)
    ensures IsRetryMove(s.move) ==> Rank(g, s.state.current) - |g.nodes| < Rank(g, st.current)
  {
    hide WellFormed, Acyclic, Rank, IsEdge, IsExitNode, IsGateNode, NamedTarget, OutEdges;
    match s.move {
      case FollowEdge(from, to, _) => RankDropsAlongEdges(g, from, to);
      case Jump(from, via, to, _) =>
        RankDropsAlongEdges(g, from, via);
        RankDropsAlongEdges(g, via, to);
      case _ => RankBelowSize(g, s.state.current);
    }
  }

  lemma LexicographicDrop(u: int, u': int, n: nat, r: int, r': int)
    requires (u' == u && r' < r) || (u' == u - 1 && r' - n < r)
    ensures u' * n + r' < u * n + r
  {
    if u' == u - 1 {
      assert u' * n == u * n - n;
    }
  }

  lemma {:induction false} StepShrinks(cfg: Config, st: State, s: StepResult)
    requires var g := cfg.graph; WellFormed(g) && Acyclic(g) && Bounds(g, st)
    requires StepLegal(cfg.graph, st, s) && StepCharges(cfg, st, s) && s.verdict.Running?
    ensures Bounds(cfg.graph, s.state)
    ensures Measure(cfg.graph, s.state) < Measure(cfg.graph, st)
  {
    hide WellFormed, Acyclic, StepCharges, WithinBudget, Rank, HasNode;
    var g := cfg.graph;
    StepAccounts(cfg, st, s);
    MoveShrinks(g, st, s);
    LexicographicDrop(Unspent(g, st), Unspent(g, s.state), |g.nodes|, Rank(g, st.current), Rank(g, s.state.current));
  }

  lemma {:induction false} RunEnds(cfg: Config, st: State, answers: seq<Answer>)
    requires WellFormed(cfg.graph) && Acyclic(cfg.graph) && Bounds(cfg.graph, st) && Fair(answers)
    ensures var r := Run(cfg, st, answers);
            |r.trace| <= Measure(cfg.graph, st) && (r.verdict.Running? ==> |answers| < Measure(cfg.graph, st))
    decreases |answers|
  {
    hide Step, StepCharges, StepLegal, WellFormed, Acyclic, Measure;
    MeasurePositive(cfg.graph, st);
    if answers != [] {
      var s := Step(cfg, st, answers[0]);
      if s.verdict.Running? {
        StepIsLegal(cfg, st, answers[0]);
        StepChargesOnce(cfg, st, answers[0]);
        StepShrinks(cfg, st, s);
        RunEnds(cfg, s.state, answers[1..]);
      }
    }
  }

  /** Termination with its bound, from the start and for any answers: the loop
      makes at most (R + 1) * |Nodes| iterations, and given that many answers it
      has ended. */
  lemma {:induction false} ExecuteTerminates(cfg: Config, start: Node, answers: seq<Answer>)
    requires WellFormed(cfg.graph) && Acyclic(cfg.graph) && StartNode(cfg.graph) == Some(start) && Fair(answers)
    ensures var r := Run(cfg, Fresh(cfg, start), answers);
            var bound := (WeightedAllowance(cfg.graph, cfg.graph.nodes, EachOnce()) + 1) * |cfg.graph.nodes|;
            |r.trace| <= bound && (|answers| >= bound ==> !r.verdict.Running?)
  {
    hide Run, WellFormed, Acyclic, MaxRetries, Rank;
    var g, st := cfg.graph, Fresh(cfg, start);
    FreshIsPlaced(cfg, start);
    RunEnds(cfg, st, answers);
    NothingSpent(g.nodes, EachOnce());
    RankBelowSize(g, start.id);
    var r, n := WeightedAllowance(g, g.nodes, EachOnce()), |g.nodes|;
    assert (r + 1) * n == r * n + n;
  }
}
