/** What every iteration keeps, and where it may go. */
module EngineMoves {
  import opened Text
  import opened Model
  import opened Runtime
  import opened Selector
  import opened EngineSpec

  /** The loop stands at a node of the graph. */
  predicate Placed(g: Graph, st: State) {
    HasNode(g, st.current)
  }

  predicate IsExitNode(g: Graph, id: string) {
    exists n :: n in g.nodes && n.id == id && IsExit(n)
  }

  predicate IsGateNode(g: Graph, id: string) {
    exists n :: n in g.nodes && n.id == id && IsGate(n)
  }

  predicate NamedTarget(g: Graph, gate: string, to: string) {
    to == gate || exists n :: n in g.nodes && n.id == gate && to in RetryCandidates(g, n)
  }

  function Source(m: Move): string {
    match m
    case FollowEdge(from, _, _) => from
    case Jump(from, _, _, _) => from
    case RetryInPlace(at, _) => at
    case ExitRedirect(exit, _, _) => exit
    case ReachExit(at) => at
    case DeadEnd(at) => at
    case Abort(at) => at
  }

  function Target(m: Move): string {
    match m
    case FollowEdge(_, to, _) => to
    case Jump(_, _, to, _) => to
    case ExitRedirect(_, _, to) => to
    case _ => Source(m)
  }

  /** An edge of the graph; two edges over a child; in place; or from an exit
      node back on behalf of a gate. A gate is never left with status FAIL. */
  predicate Legal(g: Graph, m: Move) {
    match m
    case FollowEdge(from, to, final) => IsEdge(g, from, to) && (IsGateNode(g, from) ==> final != Fail)
    case Jump(from, via, to, final) =>
      IsEdge(g, from, via) && IsEdge(g, via, to) && (IsGateNode(g, from) ==> final != Fail)
    case RetryInPlace(_, _) => true
    case ExitRedirect(exit, gate, to) => IsExitNode(g, exit) && IsGateNode(g, gate) && NamedTarget(g, gate, to)
    case ReachExit(at) => IsExitNode(g, at)
    case DeadEnd(at) => OutEdges(g, at) == [] && !IsExitNode(g, at)
    case Abort(_) => true
  }

  predicate StepLegal(g: Graph, st: State, s: StepResult) {
    && Source(s.move) == st.current
    && Legal(g, s.move)
    && HasNode(g, Target(s.move))
    && (s.verdict.Running? ==> s.state.current == Target(s.move) && Placed(g, s.state))
    && (s.verdict.Running? ==> s.move.FollowEdge? || s.move.Jump? || s.move.RetryInPlace? || s.move.ExitRedirect?)
    && (s.move.FollowEdge? || s.move.Jump? || s.move.ExitRedirect? ==> s.verdict.Running?)
    && (s.verdict.Completed? <==> s.move.ReachExit? || s.move.DeadEnd?)
    && (s.verdict.Failed? ==> !s.verdict.why.NodeNotFound?)
  }

  lemma NodeAt(g: Graph, id: string)
    requires WellFormed(g) && HasNode(g, id)
    ensures NodeByID(g, id).Some?
    ensures forall n :: n in g.nodes && n.id == id ==> NodeByID(g, id) == Some(n)
  {
    forall n | n in g.nodes && n.id == id ensures NodeByID(g, id) == Some(n) {
      FindNodeUnique(g.nodes, n);
    }
  }

  lemma AbsorbKeepsPlace(st: State, results: seq<ChildResult>)
    ensures Absorb(st, results).current == st.current
    ensures Absorb(st, results).retries == st.retries
    ensures Absorb(st, results).saved == st.saved
    decreases |results|
  {
  }

  predicate LeapKeeps(g: Graph, st: State, leap: Leap) {
    && leap.state.current == st.current
    && leap.state.retries == st.retries
    && leap.state.saved == st.saved
    && (leap.over.Some? ==>
          IsEdge(g, st.current, leap.over.value.0) && IsEdge(g, leap.over.value.0, leap.over.value.1))
  }

  lemma {:induction false} ParallelLeap(g: Graph, st: State, a: Answer)
    ensures LeapKeeps(g, st, AfterParallel(g, st, a))
  {
    hide OutEdges, IsEdge;
    var children := Successors(g, st.current);
    if a.parallelResults.Some? {
      AbsorbKeepsPlace(st, a.parallelResults.value);
    }
    var next := FindConvergence(g, children);
    if next.Some? {
      assert children[0] in children;
    }
  }

  lemma ManagerLeap(g: Graph, st: State)
    ensures LeapKeeps(g, st, AfterManager(g, st))
  {
    hide OutEdges, IsEdge;
  }

  /** A jump goes over one child: along an edge to it and along an edge from it. */
  lemma {:induction false} LeapIsTwoEdges(g: Graph, st: State, n: Node, a: Answer)
    ensures LeapKeeps(g, st, LeapOver(g, st, n, a))
  {
    hide AfterParallel, AfterManager, LeapKeeps;
    ParallelLeap(g, st, a);
    ManagerLeap(g, st);
    assert LeapKeeps(g, st, Leap(st, None)) by { LeapNowhere(g, st); }
  }

  lemma LeapNowhere(g: Graph, st: State)
    ensures LeapKeeps(g, st, Leap(st, None))
  {
  }

  lemma EdgeEndsArePresent(g: Graph, a: string, b: string)
    requires WellFormed(g) && IsEdge(g, a, b)
    ensures HasNode(g, a) && HasNode(g, b)
  {
  }

  lemma TransitionLegal(cfg: Config, st: State, o: Outcome)
    requires WellFormed(cfg.graph) && Placed(cfg.graph, st)
    requires !IsExitNode(cfg.graph, st.current) && (IsGateNode(cfg.graph, st.current) ==> o.status != Fail)
    ensures StepLegal(cfg.graph, st, TransitionStep(cfg, st, st.current, o))
  {
    hide IsExitNode, IsGateNode, OutEdges, ChoiceOf, WellFormed, HasNode, SelectEdge;
    var pick := SelectEdge(cfg.platform, cfg.graph, st.current, ChoiceOf(o, st.context));
    if pick.Some? {
      assert IsEdge(cfg.graph, st.current, pick.value.to);
      EdgeEndsArePresent(cfg.graph, st.current, pick.value.to);
    }
  }

  lemma {:induction false} LeaveLegal(cfg: Config, st: State, n: Node, o: Outcome, a: Answer)
    requires WellFormed(cfg.graph) && Placed(cfg.graph, st)
    requires !IsExitNode(cfg.graph, st.current) && (IsGateNode(cfg.graph, st.current) ==> o.status != Fail)
    ensures StepLegal(cfg.graph, st, LeaveStep(cfg, st, n, o, a))
  {
    hide LeapOver, TransitionStep, IsExitNode, IsGateNode, OutEdges, WellFormed, HasNode;
    var st1 := st.(completed := st.completed + {st.current});
    LeapIsTwoEdges(cfg.graph, st1, n, a);
    var leap := LeapOver(cfg.graph, st1, n, a);
    if leap.over.Some? {
      EdgeEndsArePresent(cfg.graph, leap.over.value.0, leap.over.value.1);
    } else {
      TransitionLegal(cfg, leap.state, o);
    }
  }

  lemma RetryLegal(cfg: Config, st: State, n: Node, a: Answer)
    requires Placed(cfg.graph, st)
    ensures StepLegal(cfg.graph, st, RetryStep(cfg, st, n, a))
  {
    hide HasNode, PolicyOf, DelayForAttempt;
  }

  lemma OutcomeKeepsPlace(st: State, a: Answer, o: Outcome)
    ensures AfterHandler(st, a).current == AfterOutcome(AfterHandler(st, a), o).current == st.current
    ensures AfterHandler(st, a).retries == AfterOutcome(AfterHandler(st, a), o).retries == st.retries
    ensures AfterHandler(st, a).saved == AfterOutcome(AfterHandler(st, a), o).saved == st.saved
  {
  }

  lemma {:induction false} StageLegal(cfg: Config, st: State, n: Node, a: Answer)
    requires WellFormed(cfg.graph) && NodeByID(cfg.graph, st.current) == Some(n) && !IsExit(n)
    ensures StepLegal(cfg.graph, st, StageStep(cfg, st, n, a))
  {
    hide LeaveStep, RetryStep, WellFormed, HasNode, IsExit, IsGate, Count, MaxRetries, AfterHandler, AfterOutcome,
         FinalStatus, StepLegal, IsGateNode, IsExitNode;
    var o := if a.reply.Some? then a.reply.value else Outcome(Fail, "", [], map[]);
    OutcomeKeepsPlace(st, a, o);
    var st1 := AfterHandler(st, a);
    var st2 := AfterOutcome(st1, o);
    var final := FinalStatus(n, o.status);
    FailureLegal(cfg.graph, st, st1, HandlerError(st.current));
    FailureLegal(cfg.graph, st, st2, GateFailed(st.current));
    RetryLegal(cfg, st2, n, a);
    SameStart(cfg.graph, st, st2, RetryStep(cfg, st2, n, a));
    if !(final == Fail && IsGate(n)) {
      OnlyNode(cfg.graph, n);
      LeaveLegal(cfg, st2, n, o.(status := final), a);
      SameStart(cfg.graph, st, st2, LeaveStep(cfg, st2, n, o.(status := final), a));
    }
  }

  lemma SameStart(g: Graph, st: State, t: State, s: StepResult)
    requires st.current == t.current && StepLegal(g, t, s)
    ensures StepLegal(g, st, s)
  {
    hide Legal, HasNode;
  }

  lemma FailureLegal(g: Graph, st: State, t: State, why: Failure)
    requires Placed(g, st) && !why.NodeNotFound?
    ensures StepLegal(g, st, StepResult(t, Failed(why), Abort(st.current)))
  {
    hide HasNode;
  }

  /** The node found is the only one of its ID. */
  lemma OnlyNode(g: Graph, n: Node)
    requires WellFormed(g) && n in g.nodes
    ensures IsGateNode(g, n.id) <==> IsGate(n)
    ensures IsExitNode(g, n.id) <==> IsExit(n)
  {
    hide IsGate, IsExit, WellFormed;
    assert HasNode(g, n.id);
    NodeAt(g, n.id);
  }

  lemma ExitLegal(cfg: Config, st: State, n: Node)
    requires WellFormed(cfg.graph) && NodeByID(cfg.graph, st.current) == Some(n) && IsExit(n)
    ensures StepLegal(cfg.graph, st, ExitStep(cfg, st))
  {
    hide WellFormed, OutEdges, IsExit, IsGate, RetryCandidates, MaxRetries, LatestStatus, GateSatisfied, Digits;
    var g := cfg.graph;
    if CheckGoalGates(g, st.visitLog) != "" {
      var gate := FirstUnsatisfied(g.nodes, LatestStatus(st.visitLog)).value;
      assert HasNode(g, gate.id);
    }
  }

  lemma AbortLegal(g: Graph, st: State)
    requires Placed(g, st)
    ensures StepLegal(g, st, StepResult(st, Failed(Cancelled), Abort(st.current)))
  {
    hide HasNode;
  }

  /** On a well-formed graph an iteration never fails to find its node, and every
      move is an edge, an in-place retry, a jump over two edges or an exit
      redirect. */
  lemma {:induction false} StepIsLegal(cfg: Config, st: State, a: Answer)
    requires WellFormed(cfg.graph) && Placed(cfg.graph, st)
    ensures StepLegal(cfg.graph, st, Step(cfg, st, a))
  {
    hide WellFormed, IsExit, ExitStep, StageStep, StepLegal, NodeByID;
    NodeAt(cfg.graph, st.current);
    var n := NodeByID(cfg.graph, st.current).value;
    AbortLegal(cfg.graph, st);
    if IsExit(n) { ExitLegal(cfg, st, n); } else { StageLegal(cfg, st, n, a); }
  }

  /** Consecutive moves between nodes of the graph, all legal, starting at `from`. */
  predicate Chained(g: Graph, from: string, trace: seq<Move>)
    decreases |trace|
  {
    && HasNode(g, from)
    && (trace != [] ==>
          Source(trace[0]) == from && Legal(g, trace[0]) && Chained(g, Target(trace[0]), trace[1..]))
  }

  lemma {:induction false} RunIsLegal(cfg: Config, st: State, answers: seq<Answer>)
    requires WellFormed(cfg.graph) && Placed(cfg.graph, st)
    ensures var r := Run(cfg, st, answers);
            Chained(cfg.graph, st.current, r.trace)
            && (r.verdict.Failed? ==> !r.verdict.why.NodeNotFound?)
            && (r.verdict.Running? ==> Placed(cfg.graph, r.state))
    decreases |answers|
  {
    hide Step;
    if answers != [] {
      var s := Step(cfg, st, answers[0]);
      StepIsLegal(cfg, st, answers[0]);
      if s.verdict.Running? {
        RunIsLegal(cfg, s.state, answers[1..]);
        var rest := Run(cfg, s.state, answers[1..]);
        assert After(s, rest).trace[1..] == rest.trace;
      }
    }
  }

  /** A fresh run starts at a node, whatever start node the graph has. */
  lemma FreshIsPlaced(cfg: Config, start: Node)
    requires StartNode(cfg.graph) == Some(start)
    ensures Placed(cfg.graph, Fresh(cfg, start))
  {
    assert start in cfg.graph.nodes;
  }
}
