/** Goal gates: what a run that ends through an exit node has achieved. */
module EngineGates {
  import opened Text
  import opened Model
  import opened Runtime
  import opened EngineSpec
  import opened EngineMoves

  /** Entry i is the last one of its node. */
  predicate IsLastEntry(log: seq<VisitEntry>, i: nat)
    requires i < |log|
  {
    forall j :: i < j < |log| ==> log[j].nodeID != log[i].nodeID
  }

  /** The node was visited and its last visit was a success. */
  predicate LastVisitSucceeded(log: seq<VisitEntry>, id: string) {
    exists i :: 0 <= i < |log| && log[i].nodeID == id && IsLastEntry(log, i) && log[i].status.IsSuccess()
  }

  /** Folding the log, last visit wins, finds exactly the last visits. */
  lemma {:induction false} LatestStatusIsLastVisit(log: seq<VisitEntry>, id: string)
    ensures id in LatestStatus(log) <==> exists i :: 0 <= i < |log| && log[i].nodeID == id
    ensures id in LatestStatus(log) && LatestStatus(log)[id].IsSuccess() <==> LastVisitSucceeded(log, id)
  {
    hide LastVisitSucceeded;
    if log == [] {
      NoVisit(id);
    } else {
      var front, last := log[..|log| - 1], log[|log| - 1];
      LatestStatusIsLastVisit(front, id);
      assert log == front + [last];
      LastVisitOfLonger(front, last, id);
      assert forall i :: 0 <= i < |front| ==> front[i] == log[i];
    }
  }

  lemma NoVisit(id: string)
    ensures !LastVisitSucceeded([], id)
  {
  }

  lemma LastVisitOfLonger(log: seq<VisitEntry>, e: VisitEntry, id: string)
    ensures LastVisitSucceeded(log + [e], id) <==>
      if e.nodeID == id then e.status.IsSuccess() else LastVisitSucceeded(log, id)
  {
    var all := log + [e];
    assert IsLastEntry(all, |log|);
    if e.nodeID != id {
      forall i | 0 <= i < |log| && log[i].nodeID == id ensures IsLastEntry(log, i) <==> IsLastEntry(all, i) {
        assert forall j :: 0 <= j < |log| ==> all[j] == log[j];
      }
      if LastVisitSucceeded(log, id) {
        var i :| 0 <= i < |log| && log[i].nodeID == id && IsLastEntry(log, i) && log[i].status.IsSuccess();
        assert all[i] == log[i];
      }
    }
  }

  predicate AllGatesSucceeded(g: Graph, log: seq<VisitEntry>) {
    forall n :: n in g.nodes && IsGate(n) ==> LastVisitSucceeded(log, n.id)
  }

  predicate NamelessGateSucceeded(g: Graph, log: seq<VisitEntry>) {
    forall n :: n in g.nodes && IsGate(n) && n.id == "" ==> LastVisitSucceeded(log, n.id)
  }

  lemma GateSatisfiedMeans(log: seq<VisitEntry>, n: Node)
    ensures GateSatisfied(LatestStatus(log), n) <==> (IsGate(n) ==> LastVisitSucceeded(log, n.id))
  {
    LatestStatusIsLastVisit(log, n.id);
  }

  /** The check reports a gate by its ID, so a gate whose ID is the empty string
      reads as "no gate": when the check passes, every gate succeeded exactly if
      the nameless gate, should there be one, did. */
  lemma CheckPasses(g: Graph, log: seq<VisitEntry>)
    requires CheckGoalGates(g, log) == ""
    ensures AllGatesSucceeded(g, log) <==> NamelessGateSucceeded(g, log)
  {
    hide IsGate, LastVisitSucceeded;
    forall n | n in g.nodes
      ensures GateSatisfied(LatestStatus(log), n) <==> (IsGate(n) ==> LastVisitSucceeded(log, n.id)) {
      GateSatisfiedMeans(log, n);
    }
    hide GateSatisfied;
    var first := FirstUnsatisfied(g.nodes, LatestStatus(log));
    if first.Some? {
      assert first.value.id == "";
    }
  }

  lemma EntryOfAnotherNode(log: seq<VisitEntry>, e: VisitEntry, id: string)
    requires e.status.IsSuccess()
    ensures LastVisitSucceeded(log + [e], id) <==> (e.nodeID == id || LastVisitSucceeded(log, id))
  {
    LatestStatusIsLastVisit(log + [e], id);
    LatestStatusIsLastVisit(log, id);
    assert (log + [e])[..|log|] == log;
  }

  predicate EndsAtExit(trace: seq<Move>) {
    trace != [] && trace[|trace| - 1].ReachExit?
  }

  /** The verdict of the gates over a log that ends with the exit node's own
      entry: taken before that entry, and kept by it. */
  predicate ExitVerdict(g: Graph, log: seq<VisitEntry>) {
    && log != []
    && var before := log[..|log| - 1];
       && (AllGatesSucceeded(g, before) <==> NamelessGateSucceeded(g, before))
       && (AllGatesSucceeded(g, before) ==> AllGatesSucceeded(g, log))
  }

  lemma ExitStepGates(cfg: Config, st: State)
    requires ExitStep(cfg, st).verdict.Completed?
    ensures ExitVerdict(cfg.graph, ExitStep(cfg, st).state.visitLog)
  {
    hide LastVisitSucceeded, FirstUnsatisfied, IsGate, MaxRetries, RedirectTarget;
    var g, e := cfg.graph, VisitEntry(st.current, Success, 1);
    CheckPasses(g, st.visitLog);
    assert (st.visitLog + [e])[..|st.visitLog|] == st.visitLog;
    forall n | n in g.nodes && IsGate(n) && LastVisitSucceeded(st.visitLog, n.id)
      ensures LastVisitSucceeded(st.visitLog + [e], n.id)
    {
      EntryOfAnotherNode(st.visitLog, e, n.id);
    }
  }

  lemma StepGates(cfg: Config, st: State, a: Answer)
    requires WellFormed(cfg.graph) && Placed(cfg.graph, st)
    requires Step(cfg, st, a).move.ReachExit?
    ensures ExitVerdict(cfg.graph, Step(cfg, st, a).state.visitLog)
  {
    hide ExitStep, StageStep, IsExit, WellFormed, IsGate, ExitVerdict, OutEdges;
    NodeAt(cfg.graph, st.current);
    StepIsLegal(cfg, st, a);
    var n := NodeByID(cfg.graph, st.current).value;
    if IsExit(n) {
      ExitLegal(cfg, st, n);
      ExitStepGates(cfg, st);
    } else {
      StageNeverReachesExit(cfg, st, n, a);
    }
  }

  lemma StageNeverReachesExit(cfg: Config, st: State, n: Node, a: Answer)
    requires WellFormed(cfg.graph) && NodeByID(cfg.graph, st.current) == Some(n) && !IsExit(n)
    ensures !StageStep(cfg, st, n, a).move.ReachExit?
  {
    hide StageStep, OutEdges, IsGate;
    NodeAt(cfg.graph, st.current);
    StageLegal(cfg, st, n, a);
  }

  /** Every run that ends through an exit node, from any node of the graph: all
      goal gates had a successful last visit, if the nameless gate (should the
      graph have one) did. */
  lemma {:induction false} RunGates(cfg: Config, st: State, answers: seq<Answer>)
    requires WellFormed(cfg.graph) && Placed(cfg.graph, st)
    requires EndsAtExit(Run(cfg, st, answers).trace)
    ensures ExitVerdict(cfg.graph, Run(cfg, st, answers).state.visitLog)
    decreases |answers|
  {
    hide Step, WellFormed, ExitVerdict;
    if answers != [] {
      var s := Step(cfg, st, answers[0]);
      StepIsLegal(cfg, st, answers[0]);
      if s.verdict.Running? {
        var rest := Run(cfg, s.state, answers[1..]);
        assert After(s, rest).trace == [s.move] + rest.trace;
        RunGates(cfg, s.state, answers[1..]);
      } else {
        StepGates(cfg, st, answers[0]);
      }
    }
  }

  lemma {:induction false} CompletedRunsEnd(cfg: Config, st: State, answers: seq<Answer>)
    requires WellFormed(cfg.graph) && Placed(cfg.graph, st)
    requires Run(cfg, st, answers).verdict.Completed?
    ensures var t := Run(cfg, st, answers).trace;
            t != [] && (EndsAtExit(t) || (t[|t| - 1].DeadEnd? && Legal(cfg.graph, t[|t| - 1])))
    decreases |answers|
  {
    hide Step, WellFormed, Legal;
    if answers != [] {
      var s := Step(cfg, st, answers[0]);
      StepIsLegal(cfg, st, answers[0]);
      if s.verdict.Running? {
        CompletedRunsEnd(cfg, s.state, answers[1..]);
      }
    }
  }

  predicate NoNamelessGate(g: Graph) {
    forall n :: n in g.nodes && IsGate(n) ==> n.id != ""
  }

  predicate NoDeadEnds(g: Graph) {
    forall n :: n in g.nodes && !IsExit(n) ==> OutEdges(g, n.id) != []
  }

  /** Goal gates are enforced: a successful run through an exit node has a
      successful last visit of every gate, and when only exit nodes lack
      out-edges that is every successful run. */
  lemma {:induction false} GatesEnforced(cfg: Config, start: Node, answers: seq<Answer>)
    requires WellFormed(cfg.graph) && StartNode(cfg.graph) == Some(start) && NoNamelessGate(cfg.graph)
    ensures var r := Run(cfg, Fresh(cfg, start), answers);
            && (EndsAtExit(r.trace) ==> AllGatesSucceeded(cfg.graph, r.state.visitLog))
            && (r.verdict.Completed? && NoDeadEnds(cfg.graph) ==> AllGatesSucceeded(cfg.graph, r.state.visitLog))
  {
    hide Run, WellFormed, IsGate, IsExit, LastVisitSucceeded;
    var st := Fresh(cfg, start);
    FreshIsPlaced(cfg, start);
    var r := Run(cfg, st, answers);
    if EndsAtExit(r.trace) {
      RunGates(cfg, st, answers);
    }
    if r.verdict.Completed? && NoDeadEnds(cfg.graph) {
      CompletedRunsEnd(cfg, st, answers);
      RunIsLegal(cfg, st, answers);
      if !EndsAtExit(r.trace) {
        LastMoveIsPlaced(cfg.graph, st.current, r.trace);
      }
    }
  }

  lemma {:induction false} LastMoveIsPlaced(g: Graph, from: string, trace: seq<Move>)
    requires Chained(g, from, trace) && trace != []
    ensures HasNode(g, Source(trace[|trace| - 1]))
    decreases |trace|
  {
    hide Legal;
    if |trace| > 1 {
      LastMoveIsPlaced(g, Target(trace[0]), trace[1..]);
    }
  }
}
