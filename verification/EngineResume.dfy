/** Resuming from a saved checkpoint continues the run. */
module EngineResume {
  import opened Text
  import opened Model
  import opened Runtime
  import opened Selector
  import opened EngineSpec
  import opened EngineMoves

  /** The node recorded in the checkpoint of a continuing iteration: the next one,
      except that an exit redirect records the gate. */
  function Recorded(m: Move): string {
    match m
    case ExitRedirect(_, gate, _) => gate
    case _ => Target(m)
  }

  /** The checkpoint on disk is the whole state but for the current node. */
  predicate Mirrors(st: State, node: string) {
    st.saved == Some(Checkpoint(node, st.completed, st.retries, st.context, st.logs, st.visitLog))
  }

  predicate StepSaves(s: StepResult) {
    s.verdict.Running? ==> Mirrors(s.state, Recorded(s.move)) && s.state.current == Target(s.move)
  }

  lemma LeaveSaves(cfg: Config, st: State, n: Node, o: Outcome, a: Answer)
    ensures StepSaves(LeaveStep(cfg, st, n, o, a))
  {
    hide LeapOver, SelectEdge, ChoiceOf;
  }

  lemma StageSaves(cfg: Config, st: State, n: Node, a: Answer)
    ensures StepSaves(StageStep(cfg, st, n, a))
  {
    hide LeaveStep, IsGate, MaxRetries, PolicyOf, DelayForAttempt;
    if a.reply.Some? {
      var o := a.reply.value;
      OutcomeKeepsPlace(st, a, o);
      var st2 := AfterOutcome(AfterHandler(st, a), o);
      LeaveSaves(cfg, st2, n, o.(status := FinalStatus(n, o.status)), a);
    }
  }

  /** Whenever the loop goes on, it has just saved what it goes on with. */
  lemma StepSavesState(cfg: Config, st: State, a: Answer)
    ensures StepSaves(Step(cfg, st, a))
  {
    hide StageStep, IsExit, IsGate, MaxRetries, RedirectTarget;
    var n := NodeByID(cfg.graph, st.current);
    if n.Some? {
      StageSaves(cfg, st, n.value, a);
    }
  }

  lemma {:induction false} RunSavesState(cfg: Config, st: State, answers: seq<Answer>)
    requires Run(cfg, st, answers).verdict.Running? && answers != []
    ensures var r := Run(cfg, st, answers);
            && r.trace != []
            && var last := r.trace[|r.trace| - 1];
               Mirrors(r.state, Recorded(last)) && r.state.current == Target(last)
    decreases |answers|
  {
    hide Step, Mirrors;
    var s := Step(cfg, st, answers[0]);
    StepSavesState(cfg, st, answers[0]);
    if |answers| > 1 {
      RunSavesState(cfg, s.state, answers[1..]);
    }
  }

  /** Where a run resumed from a checkpoint stands. */
  function Landing(start: Node, node: string): string {
    if node != "" then node else start.id
  }

  predicate HasInitialKeys(cfg: Config, st: State) {
    InitialContext(cfg).Keys <= st.context.Keys
  }

  lemma MergeOver(m: map<string, string>, n: map<string, string>)
    ensures m + n == n <==> m.Keys <= n.Keys
  {
    if m + n == n {
      assert (m + n).Keys == m.Keys + n.Keys;
    }
  }

  /** The state rebuilt from the checkpoint of a continuing run equals the state
      that went on exactly when no initial context key has been deleted and the
      recorded node is where the run went: not for a node whose ID is empty, nor
      for an exit redirect past the gate. */
  lemma ResumeRebuilds(cfg: Config, start: Node, st: State, node: string)
    requires Mirrors(st, node)
    ensures Resume(cfg, start, st.saved.value) == st <==> HasInitialKeys(cfg, st) && Landing(start, node) == st.current
  {
    MergeOver(InitialContext(cfg), st.context);
    assert [] + st.logs == st.logs && {} + st.completed == st.completed;
  }

  /** No handler deletes a key of the initial context. */
  predicate Respectful(cfg: Config, answers: seq<Answer>) {
    forall i :: 0 <= i < |answers| ==> answers[i].deletes !! InitialContext(cfg).Keys
  }

  predicate Grows(before: State, after: State) {
    before.context.Keys <= after.context.Keys
  }

  lemma {:induction false} AbsorbGrows(st: State, results: seq<ChildResult>)
    ensures Grows(st, Absorb(st, results))
    decreases |results|
  {
    if results != [] {
      AbsorbGrows(Taken(st, results[0]), results[1..]);
    }
  }

  lemma {:induction false} LeapGrows(g: Graph, st: State, n: Node, a: Answer)
    ensures Grows(st, LeapOver(g, st, n, a).state)
  {
    hide FindConvergence, FirstGrandchild, Successors;
    if a.parallelResults.Some? {
      AbsorbGrows(st, a.parallelResults.value);
    }
  }

  lemma LeaveGrows(cfg: Config, st: State, n: Node, o: Outcome, a: Answer)
    ensures Grows(st, LeaveStep(cfg, st, n, o, a).state)
  {
    hide SelectEdge, ChoiceOf, LeapOver;
    LeapGrows(cfg.graph, st.(completed := st.completed + {st.current}), n, a);
  }

  lemma {:induction false} StageKeepsKeys(cfg: Config, st: State, n: Node, a: Answer, keys: set<string>)
    requires keys <= st.context.Keys && a.deletes !! keys
    ensures keys <= StageStep(cfg, st, n, a).state.context.Keys
  {
    hide LeaveStep, IsGate, MaxRetries, PolicyOf, DelayForAttempt;
    if a.reply.Some? {
      var o := a.reply.value;
      LeaveGrows(cfg, AfterOutcome(AfterHandler(st, a), o), n, o.(status := FinalStatus(n, o.status)), a);
    }
  }

  lemma {:induction false} StepKeepsKeys(cfg: Config, st: State, a: Answer, keys: set<string>)
    requires keys <= st.context.Keys && a.deletes !! keys
    ensures keys <= Step(cfg, st, a).state.context.Keys
  {
    hide StageStep, IsExit, IsGate, MaxRetries, RedirectTarget;
    var n := NodeByID(cfg.graph, st.current);
    if n.Some? {
      StageKeepsKeys(cfg, st, n.value, a, keys);
    }
  }

  lemma {:induction false} RunKeepsKeys(cfg: Config, st: State, answers: seq<Answer>)
    requires HasInitialKeys(cfg, st) && Respectful(cfg, answers)
    ensures HasInitialKeys(cfg, Run(cfg, st, answers).state)
    decreases |answers|
  {
    hide Step, InitialContext;
    if answers != [] {
      StepKeepsKeys(cfg, st, answers[0], InitialContext(cfg).Keys);
      RunKeepsKeys(cfg, Step(cfg, st, answers[0]).state, answers[1..]);
    }
  }

  /** Two stretches of answers in a row. */
  lemma {:induction false} RunInTwo(cfg: Config, st: State, a: seq<Answer>, b: seq<Answer>)
    requires Run(cfg, st, a).verdict.Running?
    ensures var r := Run(cfg, st, a); var q := Run(cfg, r.state, b);
            Run(cfg, st, a + b) == q.(trace := r.trace + q.trace)
    decreases |a|
  {
    hide Step, Run;
    if a == [] {
      RunOfNothing(cfg, st);
      assert a + b == b;
      var q := Run(cfg, st, b);
      assert [] + q.trace == q.trace;
    } else {
      var s := Step(cfg, st, a[0]);
      assert (a + b)[0] == a[0] && (a + b)[1..] == a[1..] + b;
      RunUnfolds(cfg, st, a + b);
      RunUnfolds(cfg, st, a);
      RunInTwo(cfg, s.state, a[1..], b);
      var r := Run(cfg, s.state, a[1..]);
      var q := Run(cfg, r.state, b);
      assert [s.move] + (r.trace + q.trace) == ([s.move] + r.trace) + q.trace;
    }
  }

  lemma RunOfNothing(cfg: Config, st: State)
    ensures Run(cfg, st, []) == RunResult(st, Running, [])
  {
  }

  lemma RunUnfolds(cfg: Config, st: State, answers: seq<Answer>)
    requires answers != []
    ensures var s := Step(cfg, st, answers[0]);
            Run(cfg, st, answers) == if s.verdict.Running? then After(s, Run(cfg, s.state, answers[1..])) else StopAt(s)
  {
    hide Step;
  }

  /** The run goes on, and its last move led to a named node without being an exit
      redirect past its gate. */
  predicate Resumable(r: RunResult) {
    && r.verdict.Running?
    && r.trace != []
    && var last := r.trace[|r.trace| - 1];
       Recorded(last) == Target(last) != ""
  }

  /** Resume equals continue: stop a run anywhere, load its checkpoint, go on with
      the same answers, and the whole is the uninterrupted run. The run may itself
      have begun anywhere, in particular by being resumed. */
  lemma {:induction false} ResumeContinues(cfg: Config, start: Node, st: State, before: seq<Answer>, after: seq<Answer>)
    requires HasInitialKeys(cfg, st) && Respectful(cfg, before) && Resumable(Run(cfg, st, before))
    ensures var r := Run(cfg, st, before);
            && r.state.saved.Some?
            && var q := Run(cfg, Resume(cfg, start, r.state.saved.value), after);
               Run(cfg, st, before + after) == q.(trace := r.trace + q.trace)
  {
    hide Run, InitialContext;
    var r := Run(cfg, st, before);
    assert before != [] by { RunOfNothing(cfg, st); }
    RunSavesState(cfg, st, before);
    RunKeepsKeys(cfg, st, before);
    ResumeRebuilds(cfg, start, r.state, Recorded(r.trace[|r.trace| - 1]));
    RunInTwo(cfg, st, before, after);
  }

  /** In particular a fresh run, stopped anywhere. */
  lemma {:induction false} FreshRunResumes(cfg: Config, start: Node, before: seq<Answer>, after: seq<Answer>)
    requires Respectful(cfg, before) && Resumable(Run(cfg, Fresh(cfg, start), before))
    ensures var r := Run(cfg, Fresh(cfg, start), before);
            && r.state.saved.Some?
            && var q := Run(cfg, Resume(cfg, start, r.state.saved.value), after);
               Run(cfg, Fresh(cfg, start), before + after) == q.(trace := r.trace + q.trace)
  {
    hide Run, Respectful, Resumable, Resume;
    ResumeContinues(cfg, start, Fresh(cfg, start), before, after);
  }

  // ---- cancelled while it waits to retry ----

  predicate Interrupted(s: StepResult) {
    s.move.RetryInPlace? && s.verdict == Failed(Cancelled)
  }

  /** The same answer without the cancellation in the sleep. */
  function Undisturbed(a: Answer): Answer {
    a.(cancelledInSleep := false)
  }

  lemma LeaveMoves(cfg: Config, st: State, n: Node, o: Outcome, a: Answer)
    ensures var s := LeaveStep(cfg, st, n, o, a);
            !s.verdict.Failed? && !s.move.RetryInPlace? && !s.move.ExitRedirect?
  {
    hide LeapOver, SelectEdge, ChoiceOf;
  }

  /** Of a retry: the checkpoint is saved before the delay. */
  lemma RetryRests(cfg: Config, st: State, n: Node, a: Answer)
    ensures var s := RetryStep(cfg, st, n, a);
            && RetryStep(cfg, st, n, Undisturbed(a)) == s.(verdict := Running)
            && s.state.current == st.current == Target(s.move) && Mirrors(s.state, st.current)
            && s.move.RetryInPlace?
  {
    hide DelayForAttempt, PolicyOf, Digits;
  }

  lemma UndisturbedHandler(st: State, a: Answer)
    ensures AfterHandler(st, Undisturbed(a)) == AfterHandler(st, a)
  {
  }

  lemma StageRests(cfg: Config, st: State, n: Node, a: Answer)
    requires StageStep(cfg, st, n, a).move.RetryInPlace?
    ensures var s := StageStep(cfg, st, n, a);
            && StageStep(cfg, st, n, Undisturbed(a)) == s.(verdict := Running)
            && s.state.current == st.current == Target(s.move) && Mirrors(s.state, st.current)
  {
    hide IsGate, MaxRetries, LeaveStep, RetryStep, AfterHandler, AfterOutcome, Mirrors, FinalStatus;
    if a.reply.Some? {
      var o := a.reply.value;
      OutcomeKeepsPlace(st, a, o);
      UndisturbedHandler(st, a);
      var st2 := AfterOutcome(AfterHandler(st, a), o);
      RetryRests(cfg, st2, n, a);
      LeaveMoves(cfg, st2, n, o.(status := FinalStatus(n, o.status)), a);
    }
  }

  lemma ExitMoves(cfg: Config, st: State)
    ensures var s := ExitStep(cfg, st);
            !s.move.RetryInPlace? && (s.move.ExitRedirect? ==> s.verdict.Running?)
  {
    hide MaxRetries, RedirectTarget, CheckGoalGates, FirstUnsatisfied, Bump;
  }

  /** The delay comes after the checkpoint, so an iteration cancelled in its delay
      has saved just what it would have gone on with. */
  lemma InterruptedStepSaves(cfg: Config, st: State, a: Answer)
    requires Step(cfg, st, a).move.RetryInPlace?
    ensures var s := Step(cfg, st, a);
            && Step(cfg, st, Undisturbed(a)) == s.(verdict := Running)
            && s.state.current == st.current == Target(s.move) && Mirrors(s.state, st.current)
  {
    hide IsExit, ExitStep, StageStep, Mirrors;
    var n := NodeByID(cfg.graph, st.current);
    ExitMoves(cfg, st);
    if n.Some? && !a.cancelled && !IsExit(n.value) {
      StageRests(cfg, st, n.value, a);
    }
  }

  lemma UndisturbedIsAsRespectful(cfg: Config, answers: seq<Answer>, a: Answer)
    requires Respectful(cfg, answers + [a])
    ensures Respectful(cfg, answers) && Respectful(cfg, answers + [Undisturbed(a)])
  {
    hide InitialContext;
    assert (answers + [a])[|answers|] == a;
    assert forall i :: 0 <= i < |answers| ==> (answers + [a])[i] == answers[i];
  }

  /** A run cancelled while it waited to retry a named node, once resumed, does
      what the run would have done without the cancellation. */
  lemma {:induction false} ResumeAfterInterrupt(cfg: Config, start: Node, st: State,
    before: seq<Answer>, last: Answer, after: seq<Answer>)
    requires HasInitialKeys(cfg, st) && Respectful(cfg, before + [last])
    requires var r := Run(cfg, st, before);
             r.verdict.Running? && r.state.current != "" && Interrupted(Step(cfg, r.state, last))
    ensures var r := Run(cfg, st, before + [last]);
            && r.verdict == Failed(Cancelled) && r.state.saved.Some?
            && var q := Run(cfg, Resume(cfg, start, r.state.saved.value), after);
               Run(cfg, st, before + [Undisturbed(last)] + after) == q.(trace := r.trace + q.trace)
  {
    hide Run, InitialContext, Step, Respectful;
    var r := Run(cfg, st, before);
    var s := Step(cfg, r.state, last);
    RunInTwo(cfg, st, before, [last]);
    RunInTwo(cfg, st, before, [Undisturbed(last)]);
    RunOfOne(cfg, r.state, last);
    RunOfOne(cfg, r.state, Undisturbed(last));
    InterruptedStepSaves(cfg, r.state, last);
    UndisturbedIsAsRespectful(cfg, before, last);
    assert Resumable(Run(cfg, st, before + [Undisturbed(last)]));
    ResumeContinues(cfg, start, st, before + [Undisturbed(last)], after);
  }

  lemma RunOfOne(cfg: Config, st: State, a: Answer)
    ensures Run(cfg, st, [a]) == StopAt(Step(cfg, st, a))
  {
    hide Step, Run;
    RunUnfolds(cfg, st, [a]);
    var s := Step(cfg, st, a);
    assert [a][1..] == [];
    RunOfNothing(cfg, s.state);
    assert [s.move] + [] == [s.move];
  }

  // ---- where a resumed run is somewhere else ----

  /** The checkpoint of an exit redirect resumes at the gate, so the run goes on
      where it was exactly when the gate was its own retry target. */
  lemma RedirectResumesAtGate(cfg: Config, start: Node, st: State, a: Answer)
    requires Step(cfg, st, a).move.ExitRedirect? && Step(cfg, st, a).move.gate != ""
    ensures var s := Step(cfg, st, a);
            && s.state.saved.Some?
            && Resume(cfg, start, s.state.saved.value).current == s.move.gate
            && (Resume(cfg, start, s.state.saved.value).current == s.state.current <==> s.move.to == s.move.gate)
  {
    hide StageStep;
    StepSavesState(cfg, st, a);
    RedirectRuns(cfg, st, a);
  }

  lemma RedirectRuns(cfg: Config, st: State, a: Answer)
    requires Step(cfg, st, a).move.ExitRedirect?
    ensures Step(cfg, st, a).verdict.Running?
  {
    hide IsExit, ExitStep, StageStep;
    var n := NodeByID(cfg.graph, st.current);
    ExitMoves(cfg, st);
    if n.Some? {
      StageDoesNotRedirect(cfg, st, n.value, a);
    }
  }

  lemma StageDoesNotRedirect(cfg: Config, st: State, n: Node, a: Answer)
    ensures !StageStep(cfg, st, n, a).move.ExitRedirect?
  {
    hide IsGate, MaxRetries, LeaveStep, RetryStep, AfterHandler, AfterOutcome, FinalStatus, Mirrors;
    if a.reply.Some? {
      var o := a.reply.value;
      var st2 := AfterOutcome(AfterHandler(st, a), o);
      RetryRests(cfg, st2, n, a);
      LeaveMoves(cfg, st2, n, o.(status := FinalStatus(n, o.status)), a);
    }
  }

  /** The final checkpoint of a finished run names no node, so resuming it starts
      over at the start node, with counters, log and context as they were. */
  lemma FinishedRunStartsOver(cfg: Config, start: Node, end: State)
    requires HasInitialKeys(cfg, end)
    ensures var final := Save(end, "");
            Resume(cfg, start, final.saved.value) == final.(current := start.id)
  {
    MergeOver(InitialContext(cfg), end.context);
    assert [] + end.logs == end.logs && {} + end.completed == end.completed;
  }
}
