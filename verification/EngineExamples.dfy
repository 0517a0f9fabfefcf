/** Runs on small graphs that pass validation: that the exceptions in the theorems
    do occur. */
module EngineExamples {
  import opened Text
  import opened Model
  import opened Runtime
  import opened Selector
  import opened EngineSpec
  import opened EngineGates
  import opened EngineLeaving
  import opened EngineResume
  import opened EngineCompleted
  import opened Validation
  import opened Reachability

  /** Start node s, exit node e, and a node between them. */
  function ThreeNodes(n: Node, edges: seq<Edge>): Graph {
    Graph("g", [Node("s", map["shape" := "Mdiamond"], 0), n, Node("e", map["shape" := "Msquare"], 2)], edges, map[])
  }

  function P(attrs: map<string, string>): Node {
    Node("p", attrs, 1)
  }

  function Line(attrs: map<string, string>): Graph {
    ThreeNodes(P(attrs), [Edge("s", "p", map[], 0), Edge("p", "e", map[], 1)])
  }

  /** s has an edge to e and one to n, in this order. */
  function Bypass(n: Node): Graph {
    ThreeNodes(n, [Edge("s", "e", map[], 0), Edge("s", n.id, map[], 1), Edge(n.id, "e", map[], 2)])
  }

  predicate Third(n: Node) {
    n.order == 1 && n.id != "s" && n.id != "e" && Attr(n.attrs, "shape") != "Mdiamond"
  }

  lemma Lookups(n: Node, edges: seq<Edge>)
    requires Third(n)
    requires forall i :: 0 <= i < |edges| ==>
               edges[i].order == i && edges[i].from in ["s", n.id, "e"] && edges[i].to in ["s", n.id, "e"]
    ensures var g := ThreeNodes(n, edges);
            && WellFormed(g) && StartNode(g) == Some(g.nodes[0])
            && (forall x :: x in g.nodes ==> NodeByID(g, x.id) == Some(x))
  {
    hide Attr, NodeByID;
    var g := ThreeNodes(n, edges);
    assert g.nodes[0].id == "s" && g.nodes[1].id == n.id && g.nodes[2].id == "e";
    assert HasNode(g, "s") && HasNode(g, n.id) && HasNode(g, "e");
    assert DistinctIDs(g.nodes);
    assert StartNode(g) == Some(g.nodes[0]) by { StartsAtS(n, edges); }
    forall x | x in g.nodes ensures NodeByID(g, x.id) == Some(x) {
      Found(g, x);
    }
  }

  lemma StartsAtS(n: Node, edges: seq<Edge>)
    ensures StartNode(ThreeNodes(n, edges)) == Some(ThreeNodes(n, edges).nodes[0])
  {
  }

  lemma Found(g: Graph, n: Node)
    requires DistinctIDs(g.nodes) && n in g.nodes
    ensures NodeByID(g, n.id) == Some(n)
  {
    FindNodeUnique(g.nodes, n);
  }

  // ---- they pass validation ----

  lemma ThreePass(cs: Charset, n: Node, edges: seq<Edge>)
    requires Third(n) && Attr(n.attrs, "shape") != "Msquare"
    requires forall i :: 0 <= i < |edges| ==>
               edges[i].order == i && edges[i].from in ["s", n.id] &&
               edges[i].to in [n.id, "e"] && edges[i].attrs == map[]
    requires Reaches(ThreeNodes(n, edges), "s", n.id) && Reaches(ThreeNodes(n, edges), "s", "e")
    ensures Passes(cs, ThreeNodes(n, edges))
  {
    hide Reaches, NodeByID;
    var g := ThreeNodes(n, edges);
    Lookups(n, edges);
    OneStart(n, edges);
    assert g.nodes[2] in g.nodes && Attr(g.nodes[2].attrs, "shape") == "Msquare";
    ReachesSelf(g, "s");
    AllReached(g, g.nodes, "s");
    assert ConditionsParse(cs, g);
    hide Cond.Parse;
    assert NothingBehindExits(g) by {
      forall x, e | x in g.nodes && Attr(x.attrs, "shape") == "Msquare" && e in g.edges ensures e.from != x.id {
        assert x == g.nodes[2];
      }
    }
  }

  lemma OneStart(n: Node, edges: seq<Edge>)
    requires Third(n)
    ensures |StartNodes(ThreeNodes(n, edges).nodes)| == 1
  {
    var nodes := ThreeNodes(n, edges).nodes;
    assert nodes[1..] == [n, nodes[2]] && [n, nodes[2]][1..] == [nodes[2]] && [nodes[2]][1..] == [];
    assert StartNodes([nodes[2]]) == [];
    assert StartNodes([n, nodes[2]]) == [];
    assert StartNodes(nodes) == [nodes[0]] + [];
  }

  lemma OverEdge(g: Graph, e: Edge, to: string)
    requires e in g.edges && Reaches(g, e.to, to)
    ensures Reaches(g, e.from, to)
  {
    assert IsEdge(g, e.from, e.to);
    ReachesOver(g, e.from, e.to, to);
  }

  lemma LinePasses(cs: Charset, attrs: map<string, string>)
    requires "shape" !in attrs
    ensures Passes(cs, Line(attrs))
  {
    hide Reaches, Passes;
    var g := Line(attrs);
    ReachesSelf(g, "p");
    ReachesSelf(g, "e");
    OverEdge(g, g.edges[1], "e");
    OverEdge(g, g.edges[0], "e");
    OverEdge(g, g.edges[0], "p");
    ThreePass(cs, P(attrs), g.edges);
  }

  lemma BypassPasses(cs: Charset, n: Node)
    requires Third(n) && Attr(n.attrs, "shape") != "Msquare"
    ensures Passes(cs, Bypass(n))
  {
    hide Reaches, Passes;
    var g := Bypass(n);
    ReachesSelf(g, n.id);
    ReachesSelf(g, "e");
    OverEdge(g, g.edges[0], "e");
    OverEdge(g, g.edges[1], n.id);
    ThreePass(cs, n, g.edges);
  }

  // ---- steps on them ----

  /** The edge that is selected when a handler prefers nothing. */
  ghost predicate Follows(p: Platform, g: Graph, e: Edge) {
    forall c: Choice :: c.preferredLabel == "" && c.suggested == [] ==> SelectEdge(p, g, e.from, c) == Some(e)
  }

  lemma OnlyEdge(p: Platform, g: Graph, e: Edge)
    requires e in g.edges && forall x :: x in g.edges && x.from == e.from ==> x == e
    ensures Follows(p, g, e)
  {
    forall c: Choice | c.preferredLabel == "" && c.suggested == [] ensures SelectEdge(p, g, e.from, c) == Some(e) {
      assert e in OutEdges(g, e.from);
      var r := SelectEdge(p, g, e.from, c);
    }
  }

  /** Of bare edges the one declared first. */
  lemma FirstEdge(p: Platform, g: Graph, e: Edge)
    requires WellFormed(g) && e in g.edges
    requires forall x :: x in g.edges && x.from == e.from ==> x.attrs == map[] && (x == e || e.order < x.order)
    ensures Follows(p, g, e)
  {
    forall c: Choice | c.preferredLabel == "" && c.suggested == [] ensures SelectEdge(p, g, e.from, c) == Some(e) {
      hide WellFormed, BestOf;
      assert e in OutEdges(g, e.from);
      SelectEdgeIsBest(p, g, e.from, c);
      forall x | x in OutEdges(g, e.from) && x != e ensures Better(p, c, e, x) {
        BareEdges(p, c, e, x);
      }
      BestBare(p, c, OutEdges(g, e.from), e, SelectEdge(p, g, e.from, c).value);
    }
  }

  lemma BareEdges(p: Platform, c: Choice, a: Edge, b: Edge)
    requires c.preferredLabel == "" && c.suggested == []
    requires a.attrs == b.attrs == map[] && a.order < b.order
    ensures Better(p, c, a, b)
  {
    hide Cond.Holds;
  }

  lemma BestBare(p: Platform, c: Choice, edges: seq<Edge>, a: Edge, b: Edge)
    requires a in edges && BestOf(p, c, edges, b)
    requires forall x :: x in edges && x != a ==> Better(p, c, a, x)
    ensures a == b
  {
    hide Tier, Criterion;
  }

  predicate Plain(n: Node) {
    Attr(n.attrs, "type") !in ["parallel", "stack.manager_loop"]
  }

  lemma PlainLeave(cfg: Config, st: State, n: Node, o: Outcome, a: Answer, e: Edge)
    requires Plain(n) && st.current == n.id == e.from
    requires Follows(cfg.platform, cfg.graph, e) && o.preferredLabel == "" && o.suggestedNextIDs == []
    ensures LeaveStep(cfg, st, n, o, a)
         == StepResult(GoTo(st.(completed := st.completed + {n.id}), e.to), Running, FollowEdge(n.id, e.to, o.status))
  {
    hide SelectEdge;
  }

  /** A plain stage that is left, its handler preferring no edge. */
  lemma PlainStep(cfg: Config, st: State, n: Node, a: Answer, e: Edge)
    requires AtStage(cfg, st, n, a) && Plain(n) && n.id == e.from
    requires NoRetryAsked(n, a.reply.value.status) || Exhausted(cfg, st, n, a.reply.value.status)
    requires Follows(cfg.platform, cfg.graph, e)
    requires a.reply.value.preferredLabel == "" && a.reply.value.suggestedNextIDs == []
    ensures var s, own := Step(cfg, st, a), a.reply.value.status;
            && s.verdict == Running && s.move == FollowEdge(n.id, e.to, FinalStatus(n, own))
            && s.state.current == e.to && s.state.retries == st.retries
            && s.state.completed == st.completed + {n.id}
            && s.state.visitLog == st.visitLog + [VisitEntry(n.id, own, Count(st.retries, n.id) + 1)]
  {
    hide Step, StageStep, LeaveStep, IsGate, IsExit, MaxRetries, Plain, NoRetryAsked, Exhausted,
         FinalStatus, Follows;
    var o := a.reply.value;
    StepIsStage(cfg, st, n, a);
    StageIsLeave(cfg, st, n, a);
    PlainLeave(cfg, AfterOutcome(AfterHandler(st, a), o), n, o.(status := FinalStatus(n, o.status)), a, e);
  }

  /** An answer of a handler that only returns a status. */
  function Says(status: Status): Answer {
    Answer(false, {}, map[], [], Some(Outcome(status, "", [], map[])), 0.0, false, None)
  }

  function On(p: Platform, g: Graph): Config {
    Config(p, g, map[])
  }

  /** The step at the exit node e. */
  lemma StepAtExit(cfg: Config, st: State, a: Answer, n: Node)
    requires NodeByID(cfg.graph, st.current) == Some(n) && IsExit(n) && !a.cancelled
    ensures Step(cfg, st, a) == ExitStep(cfg, st)
  {
    hide StageStep, ExitStep;
  }

  /** What the exit makes of the third node, the only one that can be a gate. */
  lemma CheckOfThird(n: Node, edges: seq<Edge>, log: seq<VisitEntry>)
    ensures var g := ThreeNodes(n, edges);
            && (IsGate(n) && !LastVisitSucceeded(log, n.id) ==>
                  CheckGoalGates(g, log) == n.id && FirstUnsatisfied(g.nodes, LatestStatus(log)) == Some(n))
            && (!IsGate(n) || LastVisitSucceeded(log, n.id) ==> CheckGoalGates(g, log) == "")
  {
    var g := ThreeNodes(n, edges);
    GateSatisfiedMeans(log, n);
    hide LastVisitSucceeded, LatestStatus;
    var latest := LatestStatus(log);
    assert !IsGate(g.nodes[0]) && !IsGate(g.nodes[2]);
    assert GateSatisfied(latest, g.nodes[0]) && GateSatisfied(latest, g.nodes[2]);
    hide GateSatisfied, IsGate;
    assert g.nodes[1..][0] == n && g.nodes[1..][1..] == [g.nodes[2]] && [g.nodes[2]][1..] == [];
    assert FirstUnsatisfied([g.nodes[2]], latest) == None;
  }

  lemma RunOfThree(cfg: Config, st: State, a: Answer, b: Answer, c: Answer)
    requires Step(cfg, st, a).verdict.Running? && Step(cfg, Step(cfg, st, a).state, b).verdict.Running?
    ensures var s := Step(cfg, st, a);
            var t := Step(cfg, s.state, b);
            var u := Step(cfg, t.state, c);
            Run(cfg, st, [a, b, c]) == RunResult(u.state, u.verdict, [s.move, t.move, u.move])
  {
    hide Step, Run;
    RunUnfolds(cfg, st, [a, b, c]);
    assert [a, b, c][1..] == [b, c] && [b, c][1..] == [c];
    RunUnfolds(cfg, Step(cfg, st, a).state, [b, c]);
    RunOfOne(cfg, Step(cfg, Step(cfg, st, a).state, b).state, c);
  }

  lemma ZeroIsZero()
    ensures Atoi("0") == Some(0)
  {
    assert "0"[..0] == "";
    assert DecimalValue("0") == 0;
  }

  // ---- along the line s -> p -> e ----

  /** No start, no exit, no jump. */
  predicate Regular(p: map<string, string>) {
    "shape" !in p && "type" !in p
  }

  lemma LineFacts(p: map<string, string>)
    requires Regular(p)
    ensures var g := Line(p);
            && |g.nodes| == 3 && |g.edges| == 2 && StartNode(g) == Some(g.nodes[0])
            && g.nodes[0].id == "s" && g.nodes[1] == P(p) && g.nodes[2].id == "e"
            && WellFormed(g) && (forall n :: n in g.nodes ==> NodeByID(g, n.id) == Some(n))
            && g.edges[0].from == "s" && g.edges[0].to == "p" && g.edges[1].from == "p" && g.edges[1].to == "e"
            && (forall x :: x in g.edges && x.from == "s" ==> x == g.edges[0])
            && (forall x :: x in g.edges && x.from == "p" ==> x == g.edges[1])
            && !IsGate(g.nodes[0]) && !IsExit(g.nodes[0]) && Plain(g.nodes[0]) && IsExit(g.nodes[2])
            && !IsExit(P(p)) && Plain(P(p)) && MaxRetries(g, P(p)) == IntAttr(p, "max_retries", 50)
  {
    hide WellFormed, StartNode, NodeByID, IsGate, IsExit, Plain, MaxRetries;
    Lookups(P(p), Line(p).edges);
    EndsFacts(P(p), Line(p).edges);
    RegularFacts(p, Line(p));
  }

  lemma EndsFacts(n: Node, edges: seq<Edge>)
    ensures var g := ThreeNodes(n, edges);
            !IsGate(g.nodes[0]) && !IsExit(g.nodes[0]) && Plain(g.nodes[0]) && IsExit(g.nodes[2])
  {
  }

  lemma RegularFacts(p: map<string, string>, g: Graph)
    requires Regular(p) && g.attrs == map[]
    ensures !IsExit(P(p)) && Plain(P(p)) && MaxRetries(g, P(p)) == IntAttr(p, "max_retries", 50)
  {
    hide Atoi;
  }

  lemma LineAtS(cfg: Config, p: map<string, string>, st: State, own: Status)
    requires cfg.graph == Line(p) && Regular(p) && st.current == "s" && own != Retry
    ensures var s := Step(cfg, st, Says(own));
            && s.verdict == Running && s.state.current == "p" && s.state.retries == st.retries
            && s.state.completed == st.completed + {"s"}
            && s.state.visitLog == st.visitLog + [VisitEntry("s", own, Count(st.retries, "s") + 1)]
  {
    hide Line, IsGate, IsExit, Plain, NodeByID, Step, MaxRetries, StartNode, Exhausted, FinalStatus, Follows, Passes;
    LineFacts(p);
    OnlyEdge(cfg.platform, cfg.graph, cfg.graph.edges[0]);
    PlainStep(cfg, st, cfg.graph.nodes[0], Says(own), cfg.graph.edges[0]);
  }

  lemma LineAtP(cfg: Config, p: map<string, string>, st: State, own: Status)
    requires cfg.graph == Line(p) && Regular(p) && st.current == "p"
    requires NoRetryAsked(P(p), own) || Exhausted(cfg, st, P(p), own)
    ensures var s := Step(cfg, st, Says(own));
            && s.verdict == Running && s.state.current == "e" && s.state.retries == st.retries
            && s.move == FollowEdge("p", "e", FinalStatus(P(p), own))
            && s.state.completed == st.completed + {"p"}
            && s.state.visitLog == st.visitLog + [VisitEntry("p", own, Count(st.retries, "p") + 1)]
  {
    hide Line, IsGate, IsExit, Plain, NodeByID, Step, MaxRetries, StartNode, Exhausted, FinalStatus, NoRetryAsked,
         Follows, Passes;
    LineFacts(p);
    OnlyEdge(cfg.platform, cfg.graph, cfg.graph.edges[1]);
    PlainStep(cfg, st, cfg.graph.nodes[1], Says(own), cfg.graph.edges[1]);
  }

  /** The whole line: s succeeds, p answers and is left, and the exit decides. */
  lemma LineRun(p: Platform, attrs: map<string, string>, own: Status)
    requires var n := P(attrs);
             && Regular(attrs)
             && (NoRetryAsked(n, own) ||
                 (IntAttr(attrs, "max_retries", 50) <= 0 && !(IsGate(n) && FinalStatus(n, own) == Fail)))
    ensures var g, n := Line(attrs), P(attrs);
            var r := Run(On(p, g), Fresh(On(p, g), g.nodes[0]), [Says(Success), Says(own), Says(Success)]);
            && |r.trace| == 3 && r.trace[1] == FollowEdge("p", "e", FinalStatus(n, own))
            && (IsGate(n) && !own.IsSuccess() && IntAttr(attrs, "max_retries", 50) <= 0 ==>
                  r.verdict == Failed(GateUnsatisfied("p")))
            && (!IsGate(n) || own.IsSuccess() ==> r.verdict == Completed && {"s", "p", "e"} <= r.state.completed)
  {
    hide Line, IsGate, IsExit, Plain, NodeByID, Step, MaxRetries, StartNode, FinalStatus, NoRetryAsked, Run,
         LastVisitSucceeded, CheckGoalGates, FirstUnsatisfied, IntAttr;
    var g := Line(attrs);
    var cfg := On(p, g);
    LineFacts(attrs);
    var st := Fresh(cfg, g.nodes[0]);
    LineAtS(cfg, attrs, st, Success);
    var s := Step(cfg, st, Says(Success));
    LineAtP(cfg, attrs, s.state, own);
    var t := Step(cfg, s.state, Says(own));
    LineAtE(cfg, attrs, t.state, s.state.visitLog, own);
    RunOfThree(cfg, st, Says(Success), Says(own), Says(Success));
  }

  lemma LineAtE(cfg: Config, p: map<string, string>, st: State, log: seq<VisitEntry>, own: Status)
    requires cfg.graph == Line(p) && Regular(p) && st.current == "e" && Count(st.retries, "p") == 0
    requires st.visitLog == log + [VisitEntry("p", own, 1)]
    ensures var s, n := Step(cfg, st, Says(Success)), P(p);
            && (IsGate(n) && !own.IsSuccess() && IntAttr(p, "max_retries", 50) <= 0 ==>
                  s.verdict == Failed(GateUnsatisfied("p")) && s.state == st)
            && (!IsGate(n) || own.IsSuccess() ==>
                  && s.verdict == Completed && s.state.completed == st.completed + {"e"}
                  && s.state.visitLog == st.visitLog + [VisitEntry("e", Success, 1)])
  {
    hide Line, IsGate, IsExit, Plain, NodeByID, Step, MaxRetries, StartNode, CheckGoalGates, LastVisitSucceeded,
         FirstUnsatisfied, IntAttr, LatestStatus;
    LineFacts(p);
    LastVisitOfLonger(log, VisitEntry("p", own, 1), "p");
    CheckOfThird(P(p), cfg.graph.edges, st.visitLog);
    assert cfg.graph == ThreeNodes(P(p), cfg.graph.edges) by { LineIsThree(p); }
    StepAtExit(cfg, st, Says(Success), cfg.graph.nodes[2]);
  }

  lemma LineIsThree(p: map<string, string>)
    ensures Line(p) == ThreeNodes(P(p), Line(p).edges)
  {
  }

  /** s -> p -> e with a gate p that accepts partial success: it runs out of
      retries, is left with PARTIAL_SUCCESS, and the exit fails the run over it. */
  lemma {:induction false} PartialGateFailsTheRun(p: Platform)
    ensures var g := Line(map["goal_gate" := "true", "allow_partial" := "true", "max_retries" := "0"]);
            var r := Run(On(p, g), Fresh(On(p, g), g.nodes[0]), [Says(Success), Says(Retry), Says(Success)]);
            && WellFormed(g) && Passes(p.chars, g) && StartNode(g) == Some(g.nodes[0]) && IsGate(g.nodes[1])
            && |r.trace| == 3 && r.trace[1] == FollowEdge("p", "e", PartialSuccess)
            && r.verdict == Failed(GateUnsatisfied("p"))
  {
    var attrs := map["goal_gate" := "true", "allow_partial" := "true", "max_retries" := "0"];
    hide Passes, Run, WellFormed, StartNode, NodeByID;
    ZeroIsZero();
    hide Atoi;
    var n := P(attrs);
    assert IsGate(n) && !IsExit(n) && Plain(n) && FinalStatus(n, Retry) == PartialSuccess;
    assert IntAttr(attrs, "max_retries", 50) == 0;
    LinePasses(p.chars, attrs);
    LineFacts(attrs);
    LineRun(p, attrs, Retry);
  }

  /** s -> p -> e runs to its end; resumed from its final checkpoint, it executes s
      again, which is in the completed set. */
  lemma {:induction false} CompletedNodeRunsAgain(p: Platform, again: Status)
    ensures var g := Line(map[]);
            var cfg := On(p, g);
            var r := Run(cfg, Fresh(cfg, g.nodes[0]), [Says(Success), Says(Success), Says(Success)]);
            var st := Resume(cfg, g.nodes[0], Save(r.state, "").saved.value);
            var log := Step(cfg, st, Says(again)).state.visitLog;
            && WellFormed(g) && Passes(p.chars, g) && StartNode(g) == Some(g.nodes[0]) && r.verdict == Completed
            && st.current == "s" && "s" in st.completed
            && |log| > |r.state.visitLog| && log[|r.state.visitLog|].nodeID == "s"
  {
    hide Passes, Run, WellFormed, StartNode, NodeByID;
    var n := P(map[]);
    var g := Line(map[]);
    assert !IsGate(n) && !IsExit(n) && Plain(n);
    LineRun(p, map[], Success);
    LinePasses(p.chars, map[]);
    LineFacts(map[]);
    hide Line, Step, IsExit;
    var cfg := On(p, g);
    var r := Run(cfg, Fresh(cfg, g.nodes[0]), [Says(Success), Says(Success), Says(Success)]);
    LandingIsExecuted(cfg, g.nodes[0], Save(r.state, "").saved.value, g.nodes[0], Says(again));
  }

  /** A gate that fails for the first time, its retries left to the default of 50. */
  lemma {:induction false} FailAtP(cfg: Config, attrs: map<string, string>, st: State)
    requires cfg.graph == Line(attrs) && Regular(attrs) && IsGate(P(attrs)) && "max_retries" !in attrs
    requires st.current == "p" && Count(st.retries, "p") == 0
    ensures var s := Step(cfg, st, Says(Fail));
            s.verdict == Running && s.move.RetryInPlace? && s.move.at == "p"
  {
    hide NodeByID, Step, Line, IsExit, IsGate, IntAttr, Mirrors, StartNode, WellFormed, Plain, MaxRetries, Count;
    LineFacts(attrs);
    DefaultIsFifty(attrs);
    FirstFailOfGate(cfg, st, P(attrs), Says(Fail));
    InterruptedStepSaves(cfg, st, Says(Fail));
  }

  lemma DefaultIsFifty(attrs: map<string, string>)
    ensures IntAttr(Line(attrs).attrs, "default_max_retry", 50) == 50
  {
  }

  lemma FailRun(p: Platform, attrs: map<string, string>)
    requires Regular(attrs) && IsGate(P(attrs)) && "max_retries" !in attrs
    ensures var g := Line(attrs);
            var r := Run(On(p, g), Fresh(On(p, g), g.nodes[0]), [Says(Success), Says(Fail)]);
            && WellFormed(g) && Passes(p.chars, g) && StartNode(g) == Some(g.nodes[0]) && IsGate(g.nodes[1])
            && r.verdict == Running && |r.trace| == 2 && r.trace[1].RetryInPlace? && r.trace[1].at == "p"
  {
    hide Passes, Run, WellFormed, StartNode, NodeByID, Step, Line, IsExit, Plain, MaxRetries, IsGate, Says;
    LinePasses(p.chars, attrs);
    LineFacts(attrs);
    var cfg := On(p, Line(attrs));
    var st := Fresh(cfg, cfg.graph.nodes[0]);
    LineAtS(cfg, attrs, st, Success);
    var s := Step(cfg, st, Says(Success));
    FailAtP(cfg, attrs, s.state);
    RunOfTwo(cfg, st, Says(Success), Says(Fail));
  }

  /** So it is retried, not fatal. */
  lemma {:induction false} FirstFailIsRetried(p: Platform)
    ensures var g := Line(map["goal_gate" := "true"]);
            var r := Run(On(p, g), Fresh(On(p, g), g.nodes[0]), [Says(Success), Says(Fail)]);
            && WellFormed(g) && Passes(p.chars, g) && StartNode(g) == Some(g.nodes[0]) && IsGate(g.nodes[1])
            && r.verdict == Running && |r.trace| == 2 && r.trace[1].RetryInPlace? && r.trace[1].at == "p"
  {
    var attrs := map["goal_gate" := "true"];
    assert IsGate(P(attrs)) && Regular(attrs) && "max_retries" !in attrs;
    hide *;
    FailRun(p, attrs);
  }

  // ---- past a gate that s -> e goes round ----

  lemma BypassFacts(n: Node)
    requires Third(n) && IsGate(n)
    ensures var g := Bypass(n);
            && WellFormed(g) && |g.nodes| == 3 && |g.edges| == 3 && StartNode(g) == Some(g.nodes[0])
            && g.nodes[0].id == "s" && g.nodes[1] == n && g.nodes[2].id == "e" && g == ThreeNodes(n, g.edges)
            && (forall x :: x in g.nodes ==> NodeByID(g, x.id) == Some(x))
            && g.edges[0].from == "s" && g.edges[0].to == "e"
            && (forall x :: x in g.edges && x.from == "s" ==>
                  x.attrs == map[] && (x == g.edges[0] || g.edges[0].order < x.order))
            && !IsGate(g.nodes[0]) && !IsExit(g.nodes[0]) && Plain(g.nodes[0]) && IsExit(g.nodes[2])
            && MaxRetries(g, n) == IntAttr(n.attrs, "max_retries", 50)
  {
    hide WellFormed, StartNode, NodeByID, IsGate, IsExit, Plain;
    Lookups(n, Bypass(n).edges);
    EndsFacts(n, Bypass(n).edges);
  }

  /** s succeeds, and the exit has not seen the gate. */
  lemma BypassAtS(cfg: Config, n: Node)
    requires Third(n) && IsGate(n) && cfg == On(cfg.platform, Bypass(n))
    ensures var s := Step(cfg, Fresh(cfg, cfg.graph.nodes[0]), Says(Success));
            && s.verdict == Running && s.state.current == "e" && s.state.retries == map[]
            && s.move == FollowEdge("s", "e", Success)
            && !LastVisitSucceeded(s.state.visitLog, n.id)
            && Step(cfg, s.state, Says(Success)) == ExitStep(cfg, s.state)
            && CheckGoalGates(cfg.graph, s.state.visitLog) == n.id
            && FirstUnsatisfied(cfg.graph.nodes, LatestStatus(s.state.visitLog)) == Some(n)
  {
    hide Bypass, IsGate, IsExit, Plain, NodeByID, Step, ExitStep, MaxRetries, StartNode, WellFormed, Exhausted,
         LastVisitSucceeded, CheckGoalGates, FirstUnsatisfied, LatestStatus, Follows;
    BypassFacts(n);
    var g := cfg.graph;
    var st := Fresh(cfg, g.nodes[0]);
    FirstEdge(cfg.platform, g, g.edges[0]);
    PlainStep(cfg, st, g.nodes[0], Says(Success), g.edges[0]);
    var s := Step(cfg, st, Says(Success));
    NeverVisited(s.state.visitLog, n.id);
    CheckOfThird(n, g.edges, s.state.visitLog);
    StepAtExit(cfg, s.state, Says(Success), g.nodes[2]);
  }

  lemma NeverVisited(log: seq<VisitEntry>, id: string)
    requires forall i :: 0 <= i < |log| ==> log[i].nodeID != id
    ensures !LastVisitSucceeded(log, id)
  {
  }

  lemma RunOfTwo(cfg: Config, st: State, a: Answer, b: Answer)
    requires Step(cfg, st, a).verdict.Running?
    ensures var s := Step(cfg, st, a);
            var t := Step(cfg, s.state, b);
            Run(cfg, st, [a, b]) == RunResult(t.state, t.verdict, [s.move, t.move])
  {
    hide Step, Run;
    RunUnfolds(cfg, st, [a, b]);
    assert [a, b][1..] == [b];
    RunOfOne(cfg, Step(cfg, st, a).state, b);
  }

  /** A gate whose ID is empty: the run completes and has never visited it. */
  lemma {:induction false} NamelessGateEscapes(p: Platform)
    ensures var n := Node("", map["goal_gate" := "true"], 1);
            var g := Bypass(n);
            var r := Run(On(p, g), Fresh(On(p, g), g.nodes[0]), [Says(Success), Says(Success)]);
            && WellFormed(g) && Passes(p.chars, g) && StartNode(g) == Some(g.nodes[0]) && n in g.nodes && IsGate(n)
            && r.verdict == Completed && EndsAtExit(r.trace) && !AllGatesSucceeded(g, r.state.visitLog)
  {
    hide Passes, Bypass, Step, IsExit, MaxRetries, StartNode, WellFormed, LastVisitSucceeded, CheckGoalGates,
         FirstUnsatisfied, LatestStatus, Run, NodeByID;
    var n := Node("", map["goal_gate" := "true"], 1);
    var cfg := On(p, Bypass(n));
    assert IsGate(n) && Third(n);
    BypassPasses(p.chars, n);
    hide Third;
    BypassFacts(n);
    BypassAtS(cfg, n);
    var s := Step(cfg, Fresh(cfg, cfg.graph.nodes[0]), Says(Success));
    EntryOfAnotherNode(s.state.visitLog, VisitEntry("e", Success, 1), "");
    RunOfTwo(cfg, Fresh(cfg, cfg.graph.nodes[0]), Says(Success), Says(Success));
  }

  /** A gate p that names s as its retry target: the run goes to s for the sake of
      p, and its checkpoint, loaded, goes to p. */
  lemma {:induction false} RedirectedRunResumesElsewhere(p: Platform)
    ensures var g := Bypass(P(map["goal_gate" := "true", "retry_target" := "s"]));
            var cfg := On(p, g);
            var r := Run(cfg, Fresh(cfg, g.nodes[0]), [Says(Success), Says(Success)]);
            && WellFormed(g) && Passes(p.chars, g) && StartNode(g) == Some(g.nodes[0])
            && |r.trace| == 2 && r.trace[1] == ExitRedirect("e", "p", "s")
            && r.verdict == Running && r.state.current == "s" && r.state.saved.Some?
            && Resume(cfg, g.nodes[0], r.state.saved.value).current == "p"
  {
    hide Passes, Bypass, Step, IsExit, StartNode, WellFormed, LastVisitSucceeded, CheckGoalGates, FirstUnsatisfied,
         LatestStatus, Run, NodeByID, MaxRetries;
    var n := P(map["goal_gate" := "true", "retry_target" := "s"]);
    var cfg := On(p, Bypass(n));
    assert IsGate(n) && Third(n) && IntAttr(n.attrs, "max_retries", 50) == 50;
    BypassPasses(p.chars, n);
    hide Third;
    BypassFacts(n);
    BypassAtS(cfg, n);
    assert NodeByID(cfg.graph, "s").Some?;
    FirstTarget(cfg.graph, n, "s");
    hide RedirectTarget;
    RunOfTwo(cfg, Fresh(cfg, cfg.graph.nodes[0]), Says(Success), Says(Success));
  }

  lemma FirstTarget(g: Graph, n: Node, t: string)
    requires t != "" && NodeByID(g, t).Some? && Attr(n.attrs, "retry_target") == t
    ensures RedirectTarget(g, n) == t
  {
    hide NodeByID;
    assert RetryCandidates(g, n)[0] == t;
  }
}
