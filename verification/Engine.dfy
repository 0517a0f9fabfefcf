/** internal/attractor/engine.go, `Engine`: the loop itself, with its fields
    updated in place, proved against the state machine of EngineSpec. */
module Engine {
  import opened Text
  import opened Model
  import opened Runtime
  import opened Selector
  import opened EngineSpec
  import opened EngineMoves
  import EngineResume

  class Engine {
    const cfg: Config
    const pctx: Context
    var checkpoint: Option<Checkpoint>      // loaded for a resumed run
    var retryCounters: map<string, nat>
    var completed: set<string>
    var visitLog: seq<VisitEntry>
    var checkpointFile: Option<Checkpoint>  // what saveCheckpoint last wrote

    /** The state of the loop when it stands at `currentID`. */
    ghost function Snapshot(currentID: string): State
      reads this, pctx
    {
      State(currentID, retryCounters, completed, visitLog, pctx.data, pctx.logs, checkpointFile)
    }

    /** NewEngine, then the context part of initialize, then the checkpoint of the
        run to resume, if there is one. */
    constructor (cfg: Config, resume: Option<Checkpoint>)
      ensures this.cfg == cfg && checkpoint == resume && fresh(pctx)
      ensures forall start: Node :: Snapshot(EntryID(start)) == Entry(start)
    {
      this.cfg := cfg;
      pctx := new Context();
      checkpoint, checkpointFile := None, None;
      retryCounters, completed, visitLog := map[], {}, [];
      new;
      var goal := Attr(cfg.graph.attrs, "goal");
      if goal != "" {
        pctx.Set("goal", goal);
        pctx.Set("graph.goal", goal);
      }
      pctx.Merge(cfg.initialContext);
      assert pctx.data == InitialContext(cfg);
      if resume.Some? {
        Restore(resume.value);
      }
    }

    /** Takes a checkpoint over into a new engine. */
    method Restore(cp: Checkpoint)
      modifies this`checkpoint, this`checkpointFile, this`retryCounters, this`completed, this`visitLog, pctx
      ensures checkpoint == checkpointFile == Some(cp)
      ensures retryCounters == cp.retryCounters && visitLog == cp.visitLog
      ensures completed == old(completed) + cp.completed
      ensures pctx.data == old(pctx.data) + cp.context && pctx.logs == old(pctx.logs) + cp.logs
    {
      checkpoint, checkpointFile := Some(cp), Some(cp);
      pctx.Merge(cp.context);
      for i := 0 to |cp.logs|
        modifies pctx`logs
        invariant pctx.logs == old(pctx.logs) + cp.logs[..i]
      {
        pctx.AppendLog(cp.logs[i]);
      }
      assert cp.logs[..|cp.logs|] == cp.logs;
      retryCounters := cp.retryCounters;
      completed := completed + cp.completed;
      visitLog := cp.visitLog;
    }

    /** Where the loop starts. */
    function EntryID(start: Node): string
      reads this
    {
      if checkpoint.Some? && checkpoint.value.currentNode != "" then checkpoint.value.currentNode else start.id
    }

    /** The state a fresh or resumed run enters the loop with. */
    ghost function Entry(start: Node): State
      reads this
    {
      match checkpoint
      case Some(cp) => Resume(cfg, start, cp)
      case None => Fresh(cfg, start)
    }

    method SaveCheckpoint(currentNode: string)
      modifies this`checkpointFile
      ensures Snapshot(currentNode) == Save(old(Snapshot(currentNode)), currentNode)
      ensures checkpointFile == Some(Checkpoint(currentNode, completed, retryCounters, pctx.data, pctx.logs, visitLog))
    {
      checkpointFile := Some(Checkpoint(currentNode, completed, retryCounters, pctx.data, pctx.logs, visitLog));
    }

    /** retryCounters[id]++ and its entry in the context. */
    method CountRetry(id: string)
      modifies this`retryCounters, pctx`data
      ensures forall cur :: Snapshot(cur) == Bump(old(Snapshot(cur)), id)
    {
      retryCounters := retryCounters[id := Count(retryCounters, id) + 1];
      pctx.Set("internal.retry_count." + id, Digits(retryCounters[id]));
    }

    method CheckGoalGates() returns (gateID: string)
      ensures gateID == EngineSpec.CheckGoalGates(cfg.graph, visitLog)
    {
      var latest: map<string, Status> := map[];
      for i := 0 to |visitLog|
        invariant latest == LatestStatus(visitLog[..i])
      {
        assert visitLog[..i + 1][..i] == visitLog[..i];
        latest := latest[visitLog[i].nodeID := visitLog[i].status];
      }
      assert visitLog[..|visitLog|] == visitLog;
      var nodes := cfg.graph.nodes;
      for i := 0 to |nodes|
        invariant FirstUnsatisfied(nodes, latest) == FirstUnsatisfied(nodes[i..], latest)
      {
        var n := nodes[i];
        if IsGate(n) {
          if n.id !in latest {
            return n.id;
          }
          if latest[n.id] != Success && latest[n.id] != PartialSuccess {
            return n.id;
          }
        }
      }
      return "";
    }

    method ResolveRetryTarget(n: Node) returns (target: Option<string>)
      ensures target == FirstPresent(cfg.graph, RetryCandidates(cfg.graph, n))
    {
      var candidates := RetryCandidates(cfg.graph, n);
      for i := 0 to |candidates|
        invariant FirstPresent(cfg.graph, candidates) == FirstPresent(cfg.graph, candidates[i..])
      {
        if candidates[i] != "" && NodeByID(cfg.graph, candidates[i]).Some? {
          return Some(candidates[i]);
        }
      }
      return None;
    }

    /** The part of the loop body for an exit node. */
    method AtExit(currentID: string) returns (verdict: Verdict, next: string, ghost move: Move)
      requires WellFormed(cfg.graph)
      modifies this`retryCounters, this`completed, this`visitLog, this`checkpointFile, pctx`data
      ensures StepResult(Snapshot(next), verdict, move) == ExitStep(cfg, old(Snapshot(currentID)))
    {
      hide WellFormed, LatestStatus, IsGate, Count, RetryCandidates, FirstPresent, Digits,
           MaxRetries, EngineSpec.CheckGoalGates,
           FirstUnsatisfied;
      next := currentID;
      var gateID := CheckGoalGates();
      if gateID != "" {
        var gateNode := NodeByID(cfg.graph, gateID);
        GateFound(cfg.graph, visitLog);
        var maxRetries := MaxRetries(cfg.graph, gateNode.value);
        if Count(retryCounters, gateID) < maxRetries {
          CountRetry(gateID);
          SaveCheckpoint(gateID);
          var target := ResolveRetryTarget(gateNode.value);
          next := if target.Some? then target.value else gateID;
          return Running, next, ExitRedirect(currentID, gateID, next);
        }
        return Failed(GateUnsatisfied(gateID)), next, Abort(currentID);
      }
      completed := completed + {currentID};
      visitLog := visitLog + [VisitEntry(currentID, Success, 1)];
      return Completed, next, ReachExit(currentID);
    }

    /** The two retry paths of the loop body. */
    method RetryNode(currentID: string, n: Node, a: Answer) returns (verdict: Verdict, ghost move: Move)
      modifies this`retryCounters, this`checkpointFile, pctx`data
      ensures StepResult(Snapshot(currentID), verdict, move) == RetryStep(cfg, old(Snapshot(currentID)), n, a)
    {
      hide PolicyOf, DelayForAttempt;
      CountRetry(currentID);
      SaveCheckpoint(currentID);
      var delay := DelayForAttempt(PolicyOf(cfg, n), Count(retryCounters, currentID), a.draw);
      if delay > 0 && a.cancelledInSleep {
        return Failed(Cancelled), RetryInPlace(currentID, delay);
      }
      return Running, RetryInPlace(currentID, delay);
    }

    method FindConvergence(children: seq<string>) returns (r: Option<string>)
      ensures r == EngineSpec.FindConvergence(cfg.graph, children)
    {
      hide SuccessorSet, CommonSuccessor;
      if |children| == 0 {
        return None;
      }
      var sets: seq<set<string>> := [];
      for i := 0 to |children|
        invariant |sets| == i
        invariant forall j :: 0 <= j < i ==> sets[j] == SuccessorSet(cfg.graph, children[j])
      {
        sets := sets + [SuccessorSet(cfg.graph, children[i])];
      }
      var nodes := cfg.graph.nodes;
      for k := 0 to |nodes|
        invariant FirstCommon(cfg.graph, nodes, children) == FirstCommon(cfg.graph, nodes[k..], children)
      {
        var inAll := InAll(sets, nodes[k].id);
        AllSets(cfg.graph, children, sets, nodes[k].id);
        if inAll {
          return Some(nodes[k].id);
        }
      }
      return None;
    }

    /** The inner loop of findConvergence. */
    static method InAll(sets: seq<set<string>>, id: string) returns (inAll: bool)
      ensures inAll <==> forall j :: 0 <= j < |sets| ==> id in sets[j]
    {
      for i := 0 to |sets|
        invariant forall j :: 0 <= j < i ==> id in sets[j]
      {
        if id !in sets[i] {
          return false;
        }
      }
      return true;
    }

    /** Marks and logs the children, applies their updates, finds the fan-in. */
    method HandleParallelComplete(fanOutID: string, results: Option<seq<ChildResult>>)
      returns (leap: Option<(string, string)>)
      modifies this`completed, this`visitLog, pctx`data
      ensures Leap(Snapshot(fanOutID), leap) == AfterParallel(cfg.graph, old(Snapshot(fanOutID)), Answered(results))
    {
      hide EngineSpec.FindConvergence, Successors;
      if "parallel.results" !in pctx.data {
        return None;
      }
      if results.None? {
        return None;
      }
      var childOutcomes := results.value;
      ghost var before := Snapshot(fanOutID);
      for i := 0 to |childOutcomes|
        modifies this`completed, this`visitLog, pctx`data
        invariant Absorb(before, childOutcomes) == Absorb(Snapshot(fanOutID), childOutcomes[i..])
      {
        var c := childOutcomes[i];
        assert childOutcomes[i..][1..] == childOutcomes[i + 1..];
        pctx.Merge(c.outcome.contextUpdates);
        completed := completed + {c.id};
        visitLog := visitLog + [VisitEntry(c.id, c.outcome.status, 1)];
      }
      var children := Successors(cfg.graph, fanOutID);
      var next := FindConvergence(children);
      leap := if next.Some? then Some((children[0], next.value)) else None;
    }

    /** Marks the children, finds the first successor of any of them. */
    method HandleManagerLoopComplete(managerID: string) returns (leap: Option<(string, string)>)
      modifies this`completed
      ensures Leap(Snapshot(managerID), leap) == AfterManager(cfg.graph, old(Snapshot(managerID)))
    {
      hide Successors, OutEdges, IsEdge;
      var children := Successors(cfg.graph, managerID);
      if |children| == 0 {
        assert (set c | c in children) == {};
        return None;
      }
      for i := 0 to |children|
        modifies this`completed
        invariant completed == old(completed) + set c | c in children[..i]
      {
        completed := completed + {children[i]};
      }
      assert children[..|children|] == children;
      for i := 0 to |children|
        invariant FirstGrandchild(cfg.graph, children) == FirstGrandchild(cfg.graph, children[i..])
      {
        var next := Successors(cfg.graph, children[i]);
        if |next| > 0 {
          return Some((children[i], next[0]));
        }
      }
      return None;
    }

    /** The end of the loop body: jump, follow the selected edge, or stop. */
    method Leave(currentID: string, n: Node, o: Outcome, a: Answer)
      returns (verdict: Verdict, next: string, ghost move: Move)
      requires WellFormed(cfg.graph)
      modifies this`completed, this`visitLog, this`checkpointFile, pctx`data
      ensures StepResult(Snapshot(next), verdict, move) == LeaveStep(cfg, old(Snapshot(currentID)), n, o, a)
    {
      hide AfterParallel, AfterManager, Successors, OutEdges, WellFormed, ChoiceOf;
      completed := completed + {currentID};
      next := currentID;
      var leap := None;
      if Attr(n.attrs, "type") == "parallel" {
        OnlyResultsMatter(cfg.graph, Snapshot(currentID), a);
        leap := HandleParallelComplete(currentID, a.parallelResults);
      } else if Attr(n.attrs, "type") == "stack.manager_loop" {
        leap := HandleManagerLoopComplete(currentID);
      }
      if leap.Some? {
        next := leap.value.1;
        SaveCheckpoint(next);
        return Running, next, Jump(currentID, leap.value.0, next, o.status);
      }
      var choice := ChoiceOf(o, pctx.data);
      var edges := OutEdges(cfg.graph, currentID);
      OutEdgesInDeclarationOrder(cfg.graph, currentID);
      var nextEdge := Select(cfg.platform, choice, edges);
      if nextEdge.None? {
        // Select returned nil, so there is no out-edge: the code that follows
        // this test in the source, the retry-target fallback, is never reached.
        return Completed, next, DeadEnd(currentID);
      }
      next := nextEdge.value.to;
      SaveCheckpoint(next);
      return Running, next, FollowEdge(currentID, next, o.status);
    }

    /** The part of the loop body for a stage. */
    method AtStage(currentID: string, n: Node, a: Answer) returns (verdict: Verdict, next: string, ghost move: Move)
      requires WellFormed(cfg.graph)
      modifies this`retryCounters, this`completed, this`visitLog, this`checkpointFile, pctx
      ensures StepResult(Snapshot(next), verdict, move) == StageStep(cfg, old(Snapshot(currentID)), n, a)
    {
      hide LeaveStep, RetryStep, WellFormed, IsGate, MaxRetries, AfterHandler, AfterOutcome;
      next := currentID;
      RunHandler(currentID, a);
      if a.reply.None? {
        return Failed(HandlerError(currentID)), next, Abort(currentID);
      }
      var outcome := a.reply.value;
      RecordOutcome(currentID, outcome);
      OutcomeKeepsPlace(old(Snapshot(currentID)), a, outcome);

      // FinalStatus, unless a retry is left.
      var maxRetries := MaxRetries(cfg.graph, n);
      if outcome.status == Retry {
        if Count(retryCounters, currentID) < maxRetries {
          verdict, move := RetryNode(currentID, n, a);
          return;
        }
        outcome := outcome.(status := if BoolAttr(n.attrs, "allow_partial", false) then PartialSuccess else Fail);
      }

      // A gate is never left with status FAIL.
      if outcome.status == Fail && IsGate(n) {
        if Count(retryCounters, currentID) < maxRetries {
          verdict, move := RetryNode(currentID, n, a);
          return;
        }
        return Failed(GateFailed(currentID)), next, Abort(currentID);
      }

      verdict, next, move := Leave(currentID, n, outcome, a);
    }

    /** What the handler does to the context it is given, "current_node" set. */
    method RunHandler(currentID: string, a: Answer)
      modifies pctx
      ensures Snapshot(currentID) == AfterHandler(old(Snapshot(currentID)), a)
    {
      pctx.Set("current_node", currentID);
      pctx.data := pctx.data - a.deletes + a.writes;
      pctx.logs := pctx.logs + a.newLogs;
    }

    /** What the engine itself writes: the context updates and the visit, with the
        status as it was returned. */
    method RecordOutcome(currentID: string, o: Outcome)
      modifies this`visitLog, pctx`data
      ensures Snapshot(currentID) == AfterOutcome(old(Snapshot(currentID)), o)
    {
      pctx.Merge(o.contextUpdates);
      pctx.Set("outcome", o.status.Text());
      if o.preferredLabel != "" {
        pctx.Set("preferred_label", o.preferredLabel);
      }
      visitLog := visitLog + [VisitEntry(currentID, o.status, Count(retryCounters, currentID) + 1)];
    }

    /** One iteration of the loop. */
    method Iterate(currentID: string, a: Answer) returns (verdict: Verdict, next: string, ghost move: Move)
      requires WellFormed(cfg.graph)
      modifies this`retryCounters, this`completed, this`visitLog, this`checkpointFile, pctx
      ensures StepResult(Snapshot(next), verdict, move) == Step(cfg, old(Snapshot(currentID)), a)
    {
      hide WellFormed, ExitStep, StageStep, HasNode;
      if a.cancelled {
        return Failed(Cancelled), currentID, Abort(currentID);
      }
      var node := NodeByID(cfg.graph, currentID);
      if node.None? {
        return Failed(NodeNotFound(currentID)), currentID, Abort(currentID);
      }
      if Attr(node.value.attrs, "shape") == "Msquare" {
        verdict, next, move := AtExit(currentID);
      } else {
        verdict, next, move := AtStage(currentID, node.value, a);
      }
    }

    /** The loop, for as long as the environment answers: what it leaves in the
        fields, its verdict and its moves are those of the state machine. */
    method Execute(answers: seq<Answer>) returns (verdict: Verdict, ghost result: Option<RunResult>)
      requires WellFormed(cfg.graph)
      modifies this`retryCounters, this`completed, this`visitLog, this`checkpointFile, pctx
      ensures StartNode(cfg.graph).None? ==> result.None? && verdict == Failed(NoStartNode)
      ensures StartNode(cfg.graph).Some? ==>
                var start := StartNode(cfg.graph).value;
                && result == Some(Run(cfg, old(Snapshot(EntryID(start))), answers))
                && verdict == result.value.verdict
                && Snapshot(result.value.state.current) == result.value.state
    {
      hide WellFormed, Step, Run;
      var start := StartNode(cfg.graph);
      if start.None? {
        return Failed(NoStartNode), None;
      }
      var currentID := EntryID(start.value);
      ghost var entry, trace := Snapshot(currentID), [];
      EngineResume.RunOfNothing(cfg, entry);
      var i := 0;
      verdict := Running;
      while i < |answers|
        invariant 0 <= i <= |answers| && verdict == Running
        invariant Run(cfg, entry, answers[..i]) == RunResult(Snapshot(currentID), Running, trace)
      {
        var a := answers[i];
        ghost var st := Snapshot(currentID);
        ghost var move;
        var next;
        verdict, next, move := Iterate(currentID, a);
        EngineResume.RunInTwo(cfg, entry, answers[..i], [a]);
        EngineResume.RunUnfolds(cfg, st, [a]);
        assert [a][1..] == [] && [move] + [] == [move];
        EngineResume.RunOfNothing(cfg, Step(cfg, st, a).state);
        assert answers[..i + 1] == answers[..i] + [a];
        trace := trace + [move];
        currentID := next;
        i := i + 1;
        if verdict != Running {
          result := Some(RunResult(Snapshot(currentID), verdict, trace));
          StoppedRun(cfg, entry, answers[..i], answers[i..]);
          assert answers[..i] + answers[i..] == answers;
          return;
        }
      }
      assert answers[..i] == answers;
      result := Some(RunResult(Snapshot(currentID), Running, trace));
    }

    /** The last checkpoint of a completed run. */
    method Finalize()
      modifies this`checkpointFile
      ensures forall cur :: Snapshot(cur) == Save(old(Snapshot(cur)), "")
    {
      SaveCheckpoint("");
    }
  }

  /** An answer of which only the child results matter. */
  function Answered(results: Option<seq<ChildResult>>): Answer {
    Answer(false, {}, map[], [], None, 0.0, false, results)
  }

  lemma OnlyResultsMatter(g: Graph, st: State, a: Answer)
    ensures AfterParallel(g, st, a) == AfterParallel(g, st, Answered(a.parallelResults))
  {
    hide FindConvergence, Successors, Absorb;
  }

  function SuccessorSet(g: Graph, id: string): set<string> {
    set s | s in Successors(g, id)
  }

  lemma AllSets(g: Graph, children: seq<string>, sets: seq<set<string>>, id: string)
    requires |sets| == |children|
    requires forall j :: 0 <= j < |sets| ==> sets[j] == SuccessorSet(g, children[j])
    ensures CommonSuccessor(g, children, id) <==> forall j :: 0 <= j < |sets| ==> id in sets[j]
  {
    hide Successors;
    if CommonSuccessor(g, children, id) {
      forall j | 0 <= j < |sets| ensures id in sets[j] {
        assert children[j] in children;
      }
    }
    if forall j :: 0 <= j < |sets| ==> id in sets[j] {
      forall c | c in children ensures id in Successors(g, c) {
        var j :| 0 <= j < |children| && children[j] == c;
        assert id in sets[j];
      }
    }
  }

  /** The gate that the check names is the node that the lookup finds. */
  lemma GateFound(g: Graph, log: seq<VisitEntry>)
    requires WellFormed(g) && CheckGoalGates(g, log) != ""
    ensures FirstUnsatisfied(g.nodes, LatestStatus(log)).Some?
    ensures NodeByID(g, CheckGoalGates(g, log)) == FirstUnsatisfied(g.nodes, LatestStatus(log))
  {
    hide IsGate, WellFormed;
    var gate := FirstUnsatisfied(g.nodes, LatestStatus(log)).value;
    assert HasNode(g, gate.id);
    NodeAt(g, gate.id);
  }

  /** Answers after the end are not asked for. */
  lemma {:induction false} StoppedRun(cfg: Config, st: State, a: seq<Answer>, b: seq<Answer>)
    requires !Run(cfg, st, a).verdict.Running?
    ensures Run(cfg, st, a + b) == Run(cfg, st, a)
    decreases |a|
  {
    hide Step, Run;
    if a == [] {
      EngineResume.RunOfNothing(cfg, st);
    } else {
      EngineResume.RunUnfolds(cfg, st, a);
      EngineResume.RunUnfolds(cfg, st, a + b);
      var s := Step(cfg, st, a[0]);
      assert (a + b)[1..] == a[1..] + b;
      if s.verdict.Running? {
        StoppedRun(cfg, s.state, a[1..], b);
      }
    }
  }
}
