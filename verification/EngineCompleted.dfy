/** The set of completed nodes is written and never read: nothing is skipped on
    its account, in a fresh run or in a resumed one. */
module EngineCompleted {
  import opened Model
  import opened Runtime
  import opened Selector
  import opened EngineSpec
  import opened EngineLeaving

  /** States that differ at most in the completed set and the checkpoint. */
  predicate Alike(st: State, t: State) {
    t == st.(completed := t.completed, saved := t.saved)
  }

  predicate AlikeSteps(s: StepResult, t: StepResult) {
    s.verdict == t.verdict && s.move == t.move && Alike(s.state, t.state)
  }

  lemma {:induction false} AbsorbAlike(st: State, t: State, results: seq<ChildResult>)
    requires Alike(st, t)
    ensures Alike(Absorb(st, results), Absorb(t, results))
    decreases |results|
  {
    if results != [] {
      AbsorbAlike(Taken(st, results[0]), Taken(t, results[0]), results[1..]);
    }
  }

  lemma LeapAlike(g: Graph, st: State, t: State, n: Node, a: Answer)
    requires Alike(st, t)
    ensures var x, y := LeapOver(g, st, n, a), LeapOver(g, t, n, a);
            x.over == y.over && Alike(x.state, y.state)
  {
    hide FindConvergence, FirstGrandchild, Successors;
    if a.parallelResults.Some? {
      AbsorbAlike(st, t, a.parallelResults.value);
    }
  }

  lemma TransitionAlike(cfg: Config, st: State, t: State, id: string, o: Outcome)
    requires Alike(st, t)
    ensures AlikeSteps(TransitionStep(cfg, st, id, o), TransitionStep(cfg, t, id, o))
  {
    hide SelectEdge;
  }

  lemma LeaveAlike(cfg: Config, st: State, t: State, n: Node, o: Outcome, a: Answer)
    requires Alike(st, t)
    ensures AlikeSteps(LeaveStep(cfg, st, n, o, a), LeaveStep(cfg, t, n, o, a))
  {
    hide LeapOver, TransitionStep;
    var st1, t1 := st.(completed := st.completed + {st.current}), t.(completed := t.completed + {t.current});
    LeapAlike(cfg.graph, st1, t1, n, a);
    TransitionAlike(cfg, LeapOver(cfg.graph, st1, n, a).state, LeapOver(cfg.graph, t1, n, a).state, st.current, o);
  }

  lemma OutcomeAlike(st: State, t: State, a: Answer, o: Outcome)
    requires Alike(st, t)
    ensures Alike(AfterHandler(st, a), AfterHandler(t, a))
    ensures Alike(AfterOutcome(AfterHandler(st, a), o), AfterOutcome(AfterHandler(t, a), o))
  {
  }

  lemma RetryAlike(cfg: Config, st: State, t: State, n: Node, a: Answer)
    requires Alike(st, t)
    ensures AlikeSteps(RetryStep(cfg, st, n, a), RetryStep(cfg, t, n, a))
  {
    hide PolicyOf, DelayForAttempt;
  }

  lemma StageAlike(cfg: Config, st: State, t: State, n: Node, a: Answer)
    requires Alike(st, t)
    ensures AlikeSteps(StageStep(cfg, st, n, a), StageStep(cfg, t, n, a))
  {
    hide LeaveStep, RetryStep, AfterHandler, AfterOutcome, IsGate, MaxRetries;
    if a.reply.None? {
      OutcomeAlike(st, t, a, Outcome(Success, "", [], map[]));
    } else {
      var o := a.reply.value;
      OutcomeAlike(st, t, a, o);
      var st2, t2 := AfterOutcome(AfterHandler(st, a), o), AfterOutcome(AfterHandler(t, a), o);
      RetryAlike(cfg, st2, t2, n, a);
      LeaveAlike(cfg, st2, t2, n, o.(status := FinalStatus(n, o.status)), a);
    }
  }

  lemma ExitAlike(cfg: Config, st: State, t: State)
    requires Alike(st, t)
    ensures AlikeSteps(ExitStep(cfg, st), ExitStep(cfg, t))
  {
    hide MaxRetries, RedirectTarget, CheckGoalGates, FirstUnsatisfied, LatestStatus, Digits;
  }

  lemma StepAlike(cfg: Config, st: State, t: State, a: Answer)
    requires Alike(st, t)
    ensures AlikeSteps(Step(cfg, st, a), Step(cfg, t, a))
  {
    hide StageStep, ExitStep, IsExit;
    var n := NodeByID(cfg.graph, st.current);
    ExitAlike(cfg, st, t);
    if n.Some? {
      StageAlike(cfg, st, t, n.value, a);
    }
  }

  /** Runs from such states take the same moves to the same verdict, and their
      states stay alike: the completed set decides nothing. */
  lemma {:induction false} CompletedIsNotRead(cfg: Config, st: State, t: State, answers: seq<Answer>)
    requires Alike(st, t)
    ensures var x, y := Run(cfg, st, answers), Run(cfg, t, answers);
            x.verdict == y.verdict && x.trace == y.trace && Alike(x.state, y.state)
    decreases |answers|
  {
    hide Step;
    if answers != [] {
      StepAlike(cfg, st, t, answers[0]);
      CompletedIsNotRead(cfg, Step(cfg, st, answers[0]).state, Step(cfg, t, answers[0]).state, answers[1..]);
    }
  }

  /** A resumed run executes the node it lands on, completed or not: its handler is
      asked, and a further visit is logged. */
  lemma {:induction false} LandingIsExecuted(cfg: Config, start: Node, cp: Checkpoint, n: Node, a: Answer)
    requires AtStage(cfg, Resume(cfg, start, cp), n, a)
    ensures var st := Resume(cfg, start, cp);
            var log := Step(cfg, st, a).state.visitLog;
            |log| > |cp.visitLog| && log[..|cp.visitLog|] == cp.visitLog
            && log[|cp.visitLog|] == VisitEntry(n.id, a.reply.value.status, Count(cp.retryCounters, n.id) + 1)
  {
    hide StageStep, IsExit, EntriesOf, Absorbed, Leaves;
    var st := Resume(cfg, start, cp);
    StageLeaves(cfg, st, n, a);
    StageStays(cfg, st, n, a);
    var e := VisitEntry(n.id, a.reply.value.status, Count(cp.retryCounters, n.id) + 1);
    assert (cp.visitLog + [e])[|cp.visitLog|] == e && (cp.visitLog + [e])[..|cp.visitLog|] == cp.visitLog;
  }

  /** An iteration that does not leave its node logs just that visit. */
  lemma StageStays(cfg: Config, st: State, n: Node, a: Answer)
    requires a.reply.Some?
    ensures var s := StageStep(cfg, st, n, a);
            !Leaves(s.move) ==>
              s.state.visitLog == st.visitLog +
                [VisitEntry(st.current, a.reply.value.status, Count(st.retries, st.current) + 1)]
  {
    hide LeaveStep, RetryStep, IsGate, MaxRetries;
    var o := a.reply.value;
    var st2 := AfterOutcome(AfterHandler(st, a), o);
    LeaveLogs(cfg, st2, n, o.(status := FinalStatus(n, o.status)), a);
    RetryLogs(cfg, st2, n, a);
  }

  lemma RetryLogs(cfg: Config, st: State, n: Node, a: Answer)
    ensures RetryStep(cfg, st, n, a).state.visitLog == st.visitLog
  {
    hide PolicyOf, DelayForAttempt;
  }
}
