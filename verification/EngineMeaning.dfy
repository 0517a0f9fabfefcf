/** What an iteration does, attribute by attribute, status by status and key by key:
    stated on the inputs, not through the functions of the state machine. */
module EngineMeaning {
  import opened Text
  import opened Model
  import opened Runtime
  import opened Selector
  import opened EngineSpec
  import opened EngineMoves
  import opened EngineChoices
  import opened EngineGates
  import opened EngineLeaving

  // ---- how a stage ends ----

  predicate Gate(n: Node) {
    BoolAttr(n.attrs, "goal_gate", false)
  }

  predicate AcceptsPartial(n: Node) {
    BoolAttr(n.attrs, "allow_partial", false)
  }

  /** RETRY, and FAIL of a goal gate, ask for a retry. */
  predicate AsksRetry(n: Node, own: Status) {
    own == Retry || (own == Fail && Gate(n))
  }

  /** With a retry left, a stage that asks for one is retried in place. With none
      left, a gate that returned FAIL, or RETRY without allow_partial, fails the
      run; any other stage that returned RETRY is left as a partial success if it
      accepts one and as a failure if not. Every other status is left as it is. */
  lemma {:induction false} StageEnds(cfg: Config, st: State, n: Node, a: Answer)
    requires AtStage(cfg, st, n, a)
    ensures var s, own := Step(cfg, st, a), a.reply.value.status;
            var left := Count(st.retries, n.id) < MaxRetries(cfg.graph, n);
            && (s.move.RetryInPlace? <==> AsksRetry(n, own) && left)
            && (s.verdict == Failed(GateFailed(n.id)) <==>
                  !left && Gate(n) && (own == Fail || (own == Retry && !AcceptsPartial(n))))
            && (own == Retry && !left && AcceptsPartial(n) ==> LeavesAs(s, PartialSuccess))
            && (own == Retry && !left && !AcceptsPartial(n) && !Gate(n) ==> LeavesAs(s, Fail))
            && (!AsksRetry(n, own) ==> LeavesAs(s, own))
  {
    hide LeaveStep, RetryStep, AfterHandler, AfterOutcome, IsExit, MaxRetries, Count;
    var o := a.reply.value;
    OutcomeKeepsPlace(st, a, o);
    var st2 := AfterOutcome(AfterHandler(st, a), o);
    LeaveLogs(cfg, st2, n, o.(status := FinalStatus(n, o.status)), a);
    LeaveHasNoFailure(cfg, st2, n, o.(status := FinalStatus(n, o.status)), a);
    RetryIsInPlace(cfg, st2, n, a);
  }

  lemma LeaveHasNoFailure(cfg: Config, st: State, n: Node, o: Outcome, a: Answer)
    ensures !LeaveStep(cfg, st, n, o, a).verdict.Failed?
  {
    hide LeapOver, SelectEdge, ChoiceOf;
  }

  lemma RetryIsInPlace(cfg: Config, st: State, n: Node, a: Answer)
    ensures var s := RetryStep(cfg, st, n, a);
            s.move.RetryInPlace? && (s.verdict == Running || s.verdict == Failed(Cancelled))
  {
    hide PolicyOf, DelayForAttempt;
  }

  /** At an exit: with no gate reported the run is complete, the exit logged as a
      first, successful visit; with a gate that has a retry left it goes where the
      gate's redirect leads, one retry the poorer; else it fails over the gate. */
  lemma {:induction false} ExitEnds(cfg: Config, st: State, n: Node, a: Answer)
    requires WellFormed(cfg.graph) && NodeByID(cfg.graph, st.current) == Some(n) && IsExit(n) && !a.cancelled
    ensures var s, g := Step(cfg, st, a), cfg.graph;
            var id := CheckGoalGates(g, st.visitLog);
            if id == "" then
              && s.verdict == Completed && s.move == ReachExit(n.id)
              && s.state.visitLog == st.visitLog + [VisitEntry(n.id, Success, 1)]
              && s.state.completed == st.completed + {n.id}
            else
              && NodeByID(g, id).Some?
              && var gate := NodeByID(g, id).value;
                 if Count(st.retries, id) < MaxRetries(g, gate) then
                   && s.verdict == Running && s.move == ExitRedirect(n.id, id, RedirectTarget(g, gate))
                   && s.state.current == RedirectTarget(g, gate)
                   && s.state.retries == st.retries[id := Count(st.retries, id) + 1]
                   && s.state.visitLog == st.visitLog && s.state.completed == st.completed
                 else s.verdict == Failed(GateUnsatisfied(id)) && s.state == st
  {
    hide StageStep, LatestStatus, GateSatisfied, MaxRetries, RedirectTarget, WellFormed, NodeByID, IsExit, Digits;
    var g := cfg.graph;
    if CheckGoalGates(g, st.visitLog) != "" {
      var gate := FirstUnsatisfied(g.nodes, LatestStatus(st.visitLog)).value;
      assert HasNode(g, gate.id);
      NodeAt(g, gate.id);
    }
  }

  /** max_retries of the node, if it is a number; else the graph's
      default_max_retry, if that is one; else 50. */
  lemma MaxRetriesMeans(g: Graph, n: Node)
    ensures var own, all := Atoi(Attr(n.attrs, "max_retries")), Atoi(Attr(g.attrs, "default_max_retry"));
            MaxRetries(g, n) == if own.Some? then own.value else if all.Some? then all.value else 50
  {
    assert Atoi("") == None;
  }

  // ---- the context afterwards ----

  function StatusText(s: Status): (t: string)
    ensures s == Success ==> t == "SUCCESS"
    ensures s == Fail ==> t == "FAIL"
    ensures s == Retry ==> t == "RETRY"
    ensures s == PartialSuccess ==> t == "PARTIAL_SUCCESS"
    ensures s.Other? ==> t == s.name
  {
    s.Text()
  }

  /** Who has the last word on a key: the engine on the outcome and the preferred
      label, then the outcome's updates, then what the handler wrote or deleted,
      then the engine's note of the node, then what was there. */
  function ValueAfter(st: State, a: Answer, key: string): Option<string>
    requires a.reply.Some?
  {
    var o := a.reply.value;
    if key == "preferred_label" && o.preferredLabel != "" then Some(o.preferredLabel)
    else if key == "outcome" then Some(StatusText(o.status))
    else if key in o.contextUpdates then Some(o.contextUpdates[key])
    else if key in a.writes then Some(a.writes[key])
    else if key in a.deletes then None
    else if key == "current_node" then Some(st.current)
    else Find(st.context, key)
  }

  lemma OutcomeContext(st: State, a: Answer, key: string)
    requires a.reply.Some?
    ensures Find(AfterOutcome(AfterHandler(st, a), a.reply.value).context, key) == ValueAfter(st, a, key)
  {
  }

  /** The only out-edges that are jumped over belong to parallel and manager stages. */
  predicate Jumps(n: Node) {
    Attr(n.attrs, "type") == "parallel" || Attr(n.attrs, "type") == "stack.manager_loop"
  }

  lemma LeaveKeepsContext(cfg: Config, st: State, n: Node, o: Outcome, a: Answer)
    requires !Jumps(n)
    ensures LeaveStep(cfg, st, n, o, a).state.context == st.context
  {
    hide SelectEdge, ChoiceOf;
  }

  /** After a stage that is left, every context key has the value of whoever has
      the last word on it. */
  lemma {:induction false} ContextAfterLeaving(cfg: Config, st: State, n: Node, a: Answer, key: string)
    requires AtStage(cfg, st, n, a) && !Jumps(n) && Leaves(Step(cfg, st, a).move)
    ensures Find(Step(cfg, st, a).state.context, key) == ValueAfter(st, a, key)
  {
    hide LeaveStep, AfterHandler, AfterOutcome, IsExit, IsGate, MaxRetries, FinalStatus,
         ValueAfter, Find, RetryStep, Jumps;
    var o := a.reply.value;
    var st2 := AfterOutcome(AfterHandler(st, a), o);
    LeaveKeepsContext(cfg, st2, n, o.(status := FinalStatus(n, o.status)), a);
    RetryIsInPlace(cfg, st2, n, a);
    OutcomeContext(st, a, key);
  }

  // ---- the context after a retry ----

  lemma {:induction false} DigitsAreDecimal(n: nat)
    ensures Decimal(Digits(n)) && DecimalValue(Digits(n)) == n
    decreases n
  {
    var d := ('0' as int + n % 10) as char;
    if n < 10 {
      assert [d][..0] == "";
      assert DecimalValue([d][..0]) == 0;
    } else {
      DigitsAreDecimal(n / 10);
      var front := Digits(n / 10);
      assert (front + [d])[..|front|] == front;
    }
  }

  /** The text of a counter is read back as the counter. */
  lemma CounterText(n: nat)
    requires n < INT64_LIMIT
    ensures Atoi(Digits(n)) == Some(n)
  {
    hide Digits;
    DigitsAreDecimal(n);
    assert Digits(n)[0] != '-' && Digits(n)[0] != '+';
  }

  /** After a retry the same holds, but for the entry that counts the retries. */
  lemma {:induction false} ContextAfterRetry(cfg: Config, st: State, n: Node, a: Answer, key: string)
    requires AtStage(cfg, st, n, a) && Step(cfg, st, a).move.RetryInPlace?
    ensures Find(Step(cfg, st, a).state.context, key) ==
              if key == "internal.retry_count." + n.id then Some(Digits(Count(st.retries, n.id) + 1))
              else ValueAfter(st, a, key)
  {
    hide LeaveStep, AfterHandler, AfterOutcome, IsExit, IsGate, MaxRetries, FinalStatus,
         ValueAfter, Digits, Count, RetryStep;
    var o := a.reply.value;
    OutcomeKeepsPlace(st, a, o);
    var st2 := AfterOutcome(AfterHandler(st, a), o);
    LeaveLogs(cfg, st2, n, o.(status := FinalStatus(n, o.status)), a);
    RetryContext(cfg, st2, n, a, key);
    OutcomeContext(st, a, key);
  }

  lemma RetryContext(cfg: Config, st: State, n: Node, a: Answer, key: string)
    ensures Find(RetryStep(cfg, st, n, a).state.context, key) ==
              if key == "internal.retry_count." + st.current then Some(Digits(Count(st.retries, st.current) + 1))
              else Find(st.context, key)
  {
    hide PolicyOf, DelayForAttempt, Digits;
  }

  /** A fresh run knows the goal under two names, unless its configuration says
      otherwise, and nothing but that and its configuration. */
  lemma InitialContextMeans(cfg: Config, start: Node, key: string)
    ensures var goal := Attr(cfg.graph.attrs, "goal");
            Find(Fresh(cfg, start).context, key) ==
              if key in cfg.initialContext then Some(cfg.initialContext[key])
              else if (key == "goal" || key == "graph.goal") && goal != "" then Some(goal)
              else None
  {
  }

  // ---- the edge that is taken ----

  /** A plain stage that is left goes over the best out-edge for the status it is
      left with, not the one it returned, and for the context as it is then. */
  lemma {:induction false} EdgeSeesFinalStatus(cfg: Config, st: State, n: Node, a: Answer, final: Status)
    requires WellFormed(cfg.graph) && AtStage(cfg, st, n, a) && !Jumps(n) && OutEdges(cfg.graph, n.id) != []
    requires LeavesAs(Step(cfg, st, a), final)
    ensures var s, o := Step(cfg, st, a), a.reply.value;
            && s.move.FollowEdge? && s.move.final == final
            && exists e :: e in cfg.graph.edges && s.move.to == e.to
                 && BestOf(cfg.platform, Choice(final, o.preferredLabel, o.suggestedNextIDs, s.state.context),
                           OutEdges(cfg.graph, n.id), e)
  {
    hide RetryStep, AfterHandler, AfterOutcome, IsExit, IsGate, MaxRetries, FinalStatus, WellFormed, OutEdges,
         BestOf, LeaveStep, Jumps;
    var o := a.reply.value;
    OutcomeKeepsPlace(st, a, o);
    var st2 := AfterOutcome(AfterHandler(st, a), o);
    var left := o.(status := FinalStatus(n, o.status));
    RetryIsInPlace(cfg, st2, n, a);
    LeaveOverEdge(cfg, st2, n, left, a);
    var c := Choice(left.status, o.preferredLabel, o.suggestedNextIDs, st2.context);
    SelectEdgeIsBest(cfg.platform, cfg.graph, n.id, c);
    var e := SelectEdge(cfg.platform, cfg.graph, n.id, c).value;
  }

  lemma LeaveOverEdge(cfg: Config, st: State, n: Node, o: Outcome, a: Answer)
    requires !Jumps(n) && OutEdges(cfg.graph, st.current) != []
    ensures var s, e := LeaveStep(cfg, st, n, o, a),
                        SelectEdge(cfg.platform, cfg.graph, st.current,
                                   Choice(o.status, o.preferredLabel, o.suggestedNextIDs, st.context));
            e.Some? && s.move == FollowEdge(st.current, e.value.to, o.status) && s.state.context == st.context
  {
    hide SelectEdge;
  }

  // ---- jumps and redirects ----

  /** The first of these that names a node: the gate's retry_target, its
      fallback_retry_target, the graph's two; else the gate itself. */
  lemma RedirectPriority(g: Graph, gate: Node)
    ensures var own, fallback := Attr(gate.attrs, "retry_target"), Attr(gate.attrs, "fallback_retry_target");
            var all, last := Attr(g.attrs, "retry_target"), Attr(g.attrs, "fallback_retry_target");
            RedirectTarget(g, gate) ==
              if Usable(g, own) then own
              else if Usable(g, fallback) then fallback
              else if Usable(g, all) then all
              else if Usable(g, last) then last
              else gate.id
  {
    hide FirstPresent;
    var c := RetryCandidates(g, gate);
    FirstOf(g, c[0], [c[1], c[2], c[3]]);
    FirstOf(g, c[1], [c[2], c[3]]);
    FirstOf(g, c[2], [c[3]]);
    FirstOf(g, c[3], []);
    NoneOf(g);
    assert c == [c[0]] + [c[1], c[2], c[3]] && [c[1], c[2], c[3]] == [c[1]] + [c[2], c[3]];
    assert [c[2], c[3]] == [c[2]] + [c[3]] && [c[3]] == [c[3]] + [];
  }

  lemma FirstOf(g: Graph, t: string, rest: seq<string>)
    ensures FirstPresent(g, [t] + rest) == if Usable(g, t) then Some(t) else FirstPresent(g, rest)
  {
    hide HasNode;
    assert ([t] + rest)[1..] == rest;
  }

  lemma NoneOf(g: Graph)
    ensures FirstPresent(g, []) == None
  {
  }

  /** A parallel stage whose results decode jumps to the convergence node of its
      children, if there is one, and has taken the children's results over. */
  lemma {:induction false} ParallelJumps(cfg: Config, st: State, n: Node, a: Answer, final: Status, next: string)
    requires AtStage(cfg, st, n, a) && Attr(n.attrs, "type") == "parallel"
    requires LeavesAs(Step(cfg, st, a), final) && a.parallelResults.Some?
    requires ValueAfter(st, a, "parallel.results").Some?
    requires FindConvergence(cfg.graph, Successors(cfg.graph, n.id)) == Some(next)
    ensures var s := Step(cfg, st, a);
            && s.move == Jump(n.id, Successors(cfg.graph, n.id)[0], next, final)
            && s.verdict == Running && s.state.current == next
            && n.id in s.state.completed
  {
    hide RetryStep, AfterHandler, AfterOutcome, IsExit, IsGate, MaxRetries, FinalStatus, LeaveStep, Successors,
         FindConvergence, ValueAfter, Find;
    var o := a.reply.value;
    OutcomeKeepsPlace(st, a, o);
    OutcomeContext(st, a, "parallel.results");
    var st2 := AfterOutcome(AfterHandler(st, a), o);
    RetryIsInPlace(cfg, st2, n, a);
    Present(st2.context, "parallel.results");
    ParallelLeaves(cfg, st2, n, o.(status := FinalStatus(n, o.status)), a, next);
  }

  lemma Present(m: map<string, string>, key: string)
    ensures Find(m, key).Some? <==> key in m
  {
  }

  lemma {:induction false} ParallelLeaves(cfg: Config, st: State, n: Node, o: Outcome, a: Answer, next: string)
    requires Attr(n.attrs, "type") == "parallel" && "parallel.results" in st.context && a.parallelResults.Some?
    requires FindConvergence(cfg.graph, Successors(cfg.graph, st.current)) == Some(next)
    ensures var s := LeaveStep(cfg, st, n, o, a);
            && s.move == Jump(st.current, Successors(cfg.graph, st.current)[0], next, o.status)
            && s.verdict == Running && s.state.current == next && st.current in s.state.completed
  {
    hide Successors, FindConvergence;
    AbsorbKeepsCompleted(st.(completed := st.completed + {st.current}), a.parallelResults.value);
  }

  lemma {:induction false} AbsorbKeepsCompleted(st: State, results: seq<ChildResult>)
    ensures st.completed <= Absorb(st, results).completed
    decreases |results|
  {
    if results != [] {
      AbsorbKeepsCompleted(Taken(st, results[0]), results[1..]);
    }
  }

  /** A manager stage jumps over its first child that has a successor. */
  lemma {:induction false} ManagerJumps(cfg: Config, st: State, n: Node, a: Answer,
    final: Status, via: string, next: string)
    requires AtStage(cfg, st, n, a) && Attr(n.attrs, "type") == "stack.manager_loop"
    requires LeavesAs(Step(cfg, st, a), final)
    requires FirstGrandchild(cfg.graph, Successors(cfg.graph, n.id)) == Some((via, next))
    ensures var s := Step(cfg, st, a);
            && s.move == Jump(n.id, via, next, final) && s.verdict == Running && s.state.current == next
            && s.state.completed == st.completed + {n.id} + (set c | c in Successors(cfg.graph, n.id))
  {
    hide Step, StageStep, AfterHandler, AfterOutcome, IsExit, FinalStatus, LeaveStep, Successors, FirstGrandchild,
         NoRetryAsked, Exhausted, EntriesOf, Absorbed;
    var o := a.reply.value;
    OutcomeKeepsPlace(st, a, o);
    KeepsCompleted(st, a, o);
    StepIsStage(cfg, st, n, a);
    StageLeaves(cfg, st, n, a);
    StageIsLeave(cfg, st, n, a);
    ManagerLeaves(cfg, AfterOutcome(AfterHandler(st, a), o), n, o.(status := FinalStatus(n, o.status)), a, via, next);
  }

  lemma KeepsCompleted(st: State, a: Answer, o: Outcome)
    ensures AfterOutcome(AfterHandler(st, a), o).completed == st.completed
  {
  }

  lemma {:induction false} ManagerLeaves(cfg: Config, st: State, n: Node, o: Outcome, a: Answer,
    via: string, next: string)
    requires Attr(n.attrs, "type") == "stack.manager_loop"
    requires FirstGrandchild(cfg.graph, Successors(cfg.graph, st.current)) == Some((via, next))
    ensures var s := LeaveStep(cfg, st, n, o, a);
            && s.move == Jump(st.current, via, next, o.status) && s.verdict == Running && s.state.current == next
            && s.state.completed == st.completed + {st.current} + (set c | c in Successors(cfg.graph, st.current))
  {
    hide Successors, FirstGrandchild;
  }

  /** How long a retry waits: the policy named by retry_policy, or the standard
      one, at the counter as it is after the retry. */
  lemma {:induction false} RetryDelay(cfg: Config, st: State, n: Node, a: Answer)
    requires AtStage(cfg, st, n, a) && Step(cfg, st, a).move.RetryInPlace?
    ensures var name := if "retry_policy" in n.attrs then n.attrs["retry_policy"] else "standard";
            Step(cfg, st, a).move.delayMs ==
              DelayForAttempt(PolicyByName(cfg.platform.chars, name), Count(st.retries, n.id) + 1, a.draw)
  {
    hide LeaveStep, AfterHandler, AfterOutcome, IsExit, IsGate, MaxRetries, FinalStatus, RetryStep, PolicyByName,
         DelayForAttempt;
    var o := a.reply.value;
    OutcomeKeepsPlace(st, a, o);
    var st2 := AfterOutcome(AfterHandler(st, a), o);
    LeaveLogs(cfg, st2, n, o.(status := FinalStatus(n, o.status)), a);
    DelayOfRetry(cfg, st2, n, a);
  }

  lemma DelayOfRetry(cfg: Config, st: State, n: Node, a: Answer)
    ensures var name := if "retry_policy" in n.attrs then n.attrs["retry_policy"] else "standard";
            RetryStep(cfg, st, n, a).move ==
              RetryInPlace(st.current, DelayForAttempt(PolicyByName(cfg.platform.chars, name),
                                                       Count(st.retries, st.current) + 1, a.draw))
  {
    hide PolicyByName, DelayForAttempt;
  }

  // ---- the gates ----

  /** What a run that ends through an exit has to show for every goal gate. */
  lemma {:induction false} GatesEndWell(cfg: Config, start: Node, answers: seq<Answer>, n: Node)
    requires WellFormed(cfg.graph) && StartNode(cfg.graph) == Some(start) && NoNamelessGate(cfg.graph)
    requires EndsAtExit(Run(cfg, Fresh(cfg, start), answers).trace)
    requires n in cfg.graph.nodes && Gate(n)
    ensures var log := Run(cfg, Fresh(cfg, start), answers).state.visitLog;
            exists i :: 0 <= i < |log| && log[i].nodeID == n.id
              && (log[i].status == Success || log[i].status == PartialSuccess)
              && forall j :: i < j < |log| ==> log[j].nodeID != n.id
  {
    hide WellFormed, StartNode, NoNamelessGate, EndsAtExit, Run, Fresh;
    GatesEnforced(cfg, start, answers);
    var log := Run(cfg, Fresh(cfg, start), answers).state.visitLog;
    assert LastVisitSucceeded(log, n.id);
    var i :| 0 <= i < |log| && log[i].nodeID == n.id && IsLastEntry(log, i) && log[i].status.IsSuccess();
  }
}
