/** From the source text to the run: internal/attractor/engine.go, Prepare, and the
    processes that execute one run, each resuming where the last one stopped. */
module Pipeline {
  import opened Text
  import opened Model
  import opened Runtime
  import opened Selector
  import opened EngineSpec
  import opened EngineMoves
  import opened EngineGates
  import opened EngineResume
  import G = DotGrammar
  import Stylesheet

  // ---- Prepare ----

  /** The stylesheet applied to every node. */
  function StyledGraph(cs: Charset, rules: seq<Stylesheet.Rule>, g: Graph): (r: Graph)
    ensures |r.nodes| == |g.nodes| && r.edges == g.edges && r.attrs == g.attrs
    ensures forall i :: 0 <= i < |g.nodes| ==> r.nodes[i] == Stylesheet.Styled(cs, rules, g.nodes[i])
  {
    g.(nodes := seq(|g.nodes|, i requires 0 <= i < |g.nodes| => Stylesheet.Styled(cs, rules, g.nodes[i])))
  }

  lemma StylingKeepsWellFormed(cs: Charset, rules: seq<Stylesheet.Rule>, g: Graph)
    requires WellFormed(g)
    ensures WellFormed(StyledGraph(cs, rules, g))
    ensures forall id :: HasNode(StyledGraph(cs, rules, g), id) <==> HasNode(g, id)
  {
    hide Stylesheet.Resolution;
    var r := StyledGraph(cs, rules, g);
    assert forall i :: 0 <= i < |g.nodes| ==> r.nodes[i].id == g.nodes[i].id && r.nodes[i].order == g.nodes[i].order;
    forall id ensures HasNode(r, id) <==> HasNode(g, id) {
      if HasNode(g, id) {
        var i :| 0 <= i < |g.nodes| && g.nodes[i].id == id;
        assert r.nodes[i].id == id;
      }
    }
  }

  // ---- the checkpoint file ----

  /** The file, if there is one, names a node of the graph or no node. */
  predicate FilePlaced(g: Graph, file: Option<Checkpoint>) {
    file.Some? && file.value.currentNode != "" ==> HasNode(g, file.value.currentNode)
  }

  /** An iteration that ends the run, other than in a retry delay, writes nothing. */
  lemma StageStopKeepsFile(cfg: Config, st: State, n: Node, a: Answer)
    ensures var s := StageStep(cfg, st, n, a);
            !s.verdict.Running? && !s.move.RetryInPlace? ==> s.state.saved == st.saved
  {
    hide LeaveStep, RetryStep, AfterHandler, AfterOutcome, IsGate, MaxRetries, FinalStatus;
    var o := if a.reply.Some? then a.reply.value else Outcome(Fail, "", [], map[]);
    OutcomeKeepsPlace(st, a, o);
    var st2 := AfterOutcome(AfterHandler(st, a), o);
    RetryRests(cfg, st2, n, a);
    DeadEndKeepsFile(cfg, st2, n, o.(status := FinalStatus(n, o.status)), a);
  }

  lemma DeadEndKeepsFile(cfg: Config, st: State, n: Node, o: Outcome, a: Answer)
    ensures var s := LeaveStep(cfg, st, n, o, a);
            !s.verdict.Running? ==> s.state.saved == st.saved
  {
    hide LeapOver, SelectEdge, ChoiceOf;
    LeapIsTwoEdges(cfg.graph, st.(completed := st.completed + {st.current}), n, a);
  }

  lemma ExitStopKeepsFile(cfg: Config, st: State)
    ensures !ExitStep(cfg, st).verdict.Running? ==> ExitStep(cfg, st).state.saved == st.saved
  {
    hide MaxRetries, RedirectTarget, CheckGoalGates, FirstUnsatisfied, Bump;
  }

  lemma StopKeepsFile(cfg: Config, st: State, a: Answer)
    ensures var s := Step(cfg, st, a);
            !s.verdict.Running? && !s.move.RetryInPlace? ==> s.state.saved == st.saved
  {
    hide IsExit, ExitStep, StageStep;
    ExitStopKeepsFile(cfg, st);
    var n := NodeByID(cfg.graph, st.current);
    if n.Some? {
      StageStopKeepsFile(cfg, st, n.value, a);
    }
  }

  lemma RecordedIsPlaced(g: Graph, s: StepResult)
    requires Legal(g, s.move) && HasNode(g, Target(s.move))
    ensures HasNode(g, Recorded(s.move))
  {
    if s.move.ExitRedirect? {
      var n :| n in g.nodes && n.id == s.move.gate && IsGate(n);
    }
  }

  lemma StepKeepsFilePlaced(cfg: Config, st: State, a: Answer)
    requires WellFormed(cfg.graph) && Placed(cfg.graph, st) && FilePlaced(cfg.graph, st.saved)
    ensures FilePlaced(cfg.graph, Step(cfg, st, a).state.saved)
  {
    hide WellFormed, Step, HasNode, Legal;
    var s := Step(cfg, st, a);
    StepIsLegal(cfg, st, a);
    StepSavesState(cfg, st, a);
    StopKeepsFile(cfg, st, a);
    RecordedIsPlaced(cfg.graph, s);
    if s.move.RetryInPlace? {
      InterruptedStepSaves(cfg, st, a);
    }
  }

  lemma {:induction false} RunKeepsFilePlaced(cfg: Config, st: State, answers: seq<Answer>)
    requires WellFormed(cfg.graph) && Placed(cfg.graph, st) && FilePlaced(cfg.graph, st.saved)
    ensures FilePlaced(cfg.graph, Run(cfg, st, answers).state.saved)
    decreases |answers|
  {
    hide WellFormed, Step, FilePlaced, Legal;
    if answers != [] {
      StepKeepsFilePlaced(cfg, st, answers[0]);
      StepIsLegal(cfg, st, answers[0]);
      var s := Step(cfg, st, answers[0]);
      if s.verdict.Running? {
        RunKeepsFilePlaced(cfg, s.state, answers[1..]);
      }
    }
  }

  // ---- a run over several processes ----

  /** One process: its initial context, and what its environment answers. */
  datatype Process = Process(initialContext: map<string, string>, answers: seq<Answer>)

  function ConfigOf(p: Platform, g: Graph, q: Process): Config {
    Config(p, g, q.initialContext)
  }

  /** What a process leaves on disk: a completed run writes its final checkpoint. */
  function FileAfter(r: RunResult): Option<Checkpoint> {
    if r.verdict.Completed? then Save(r.state, "").saved else r.state.saved
  }

  /** The state in which a process enters the loop: from the file, if there is one. */
  function Enter(cfg: Config, start: Node, file: Option<Checkpoint>): State {
    match file
    case Some(cp) => Resume(cfg, start, cp)
    case None => Fresh(cfg, start)
  }

  function RunOf(p: Platform, g: Graph, start: Node, file: Option<Checkpoint>, q: Process): RunResult {
    Run(ConfigOf(p, g, q), Enter(ConfigOf(p, g, q), start, file), q.answers)
  }

  /** The file after any number of processes, one after another. */
  function FileOf(p: Platform, g: Graph, start: Node, processes: seq<Process>): Option<Checkpoint> {
    if processes == [] then None
    else
      var n := |processes| - 1;
      FileAfter(RunOf(p, g, start, FileOf(p, g, start, processes[..n]), processes[n]))
  }

  lemma EnterIsPlaced(cfg: Config, start: Node, file: Option<Checkpoint>)
    requires StartNode(cfg.graph) == Some(start) && FilePlaced(cfg.graph, file)
    ensures Placed(cfg.graph, Enter(cfg, start, file)) && Enter(cfg, start, file).saved == file
  {
    FreshIsPlaced(cfg, start);
  }

  lemma {:induction false} FileIsPlaced(p: Platform, g: Graph, start: Node, processes: seq<Process>)
    requires WellFormed(g) && StartNode(g) == Some(start)
    ensures FilePlaced(g, FileOf(p, g, start, processes))
  {
    hide WellFormed, StartNode, Run, HasNode, Resume, Fresh;
    if processes != [] {
      var n := |processes| - 1;
      FileIsPlaced(p, g, start, processes[..n]);
      var file := FileOf(p, g, start, processes[..n]);
      var cfg := ConfigOf(p, g, processes[n]);
      EnterIsPlaced(cfg, start, file);
      RunKeepsFilePlaced(cfg, Enter(cfg, start, file), processes[n].answers);
    }
  }

  /** Of every text that parses, styled by any rules: each process of a run, the
      first or one that resumes what any others left, makes legal moves only, one
      behind the other from where it entered, never misses a node, and ends through
      an exit with the verdict of the gates over its whole log. */
  lemma {:induction false} EveryProcessIsLegal(
    p: Platform, src: string, rules: seq<Stylesheet.Rule>, start: Node, earlier: seq<Process>, q: Process)
    requires G.Parse(p.chars, src).Some?
    requires StartNode(StyledGraph(p.chars, rules, G.Parse(p.chars, src).value)) == Some(start)
    ensures var g := StyledGraph(p.chars, rules, G.Parse(p.chars, src).value);
            var file := FileOf(p, g, start, earlier);
            var r := RunOf(p, g, start, file, q);
            && WellFormed(g)
            && Chained(g, Enter(ConfigOf(p, g, q), start, file).current, r.trace)
            && (r.verdict.Failed? ==> !r.verdict.why.NodeNotFound?)
            && (r.verdict.Running? ==> Placed(g, r.state))
            && (EndsAtExit(r.trace) ==> ExitVerdict(g, r.state.visitLog))
  {
    hide WellFormed, StartNode, Run, HasNode, Resume, Fresh, G.Parse, StyledGraph, Chained, FilePlaced, FileOf,
         EndsAtExit, ExitVerdict;
    G.ParsedIsWellFormed(p.chars, src);
    StylingKeepsWellFormed(p.chars, rules, G.Parse(p.chars, src).value);
    var g := StyledGraph(p.chars, rules, G.Parse(p.chars, src).value);
    FileIsPlaced(p, g, start, earlier);
    var cfg := ConfigOf(p, g, q);
    EnterIsPlaced(cfg, start, FileOf(p, g, start, earlier));
    var st := Enter(cfg, start, FileOf(p, g, start, earlier));
    RunIsLegal(cfg, st, q.answers);
    if EndsAtExit(Run(cfg, st, q.answers).trace) {
      RunGates(cfg, st, q.answers);
    }
  }
}
