/** How a stage is left, and what the log then says about it: the exit check may
    see a node otherwise than the edge that was taken from it. */
module EngineLeaving {
  import opened Text
  import opened Model
  import opened Runtime
  import opened Selector
  import opened EngineSpec
  import opened EngineGates

  predicate Leaves(m: Move) {
    m.FollowEdge? || m.Jump? || m.DeadEnd?
  }

  /** The answer exhausts the node: no retry is left for what it reports. */
  predicate Exhausted(cfg: Config, st: State, n: Node, s: Status) {
    && Count(st.retries, st.current) >= MaxRetries(cfg.graph, n)
    && !(IsGate(n) && FinalStatus(n, s) == Fail)
  }

  predicate NoRetryAsked(n: Node, s: Status) {
    s != Retry && !(IsGate(n) && s == Fail)
  }

  /** The children's results that the iteration logs behind the node's own entry. */
  function Absorbed(st: State, n: Node, a: Answer): seq<ChildResult>
    requires a.reply.Some?
  {
    var st2 := AfterOutcome(AfterHandler(st, a), a.reply.value);
    if Attr(n.attrs, "type") == "parallel" && "parallel.results" in st2.context && a.parallelResults.Some?
    then a.parallelResults.value
    else []
  }

  function EntriesOf(results: seq<ChildResult>): seq<VisitEntry> {
    if results == [] then []
    else
      var last := results[|results| - 1];
      EntriesOf(results[..|results| - 1]) + [VisitEntry(last.id, last.outcome.status, 1)]
  }

  /** The last status reported for `id`: by the last child result under that ID,
      else its own. */
  function LastReport(own: Status, results: seq<ChildResult>, id: string): Status {
    if results == [] then own
    else if results[|results| - 1].id == id then results[|results| - 1].outcome.status
    else LastReport(own, results[..|results| - 1], id)
  }

  lemma {:induction false} EntriesInTwo(c: ChildResult, rest: seq<ChildResult>)
    ensures EntriesOf([c] + rest) == [VisitEntry(c.id, c.outcome.status, 1)] + EntriesOf(rest)
    decreases |rest|
  {
    if rest == [] {
      assert [c] + rest == [c] && [c][..0] == [];
    } else {
      var n := |rest| - 1;
      assert ([c] + rest)[..n + 1] == [c] + rest[..n];
      EntriesInTwo(c, rest[..n]);
    }
  }

  lemma {:induction false} AbsorbLogs(st: State, results: seq<ChildResult>)
    ensures Absorb(st, results).visitLog == st.visitLog + EntriesOf(results)
    decreases |results|
  {
    if results == [] {
      assert st.visitLog + [] == st.visitLog;
    } else {
      var c := results[0];
      AbsorbLogs(Taken(st, c), results[1..]);
      assert results == [c] + results[1..];
      EntriesInTwo(c, results[1..]);
    }
  }

  lemma {:induction false} ReportsDecide(log: seq<VisitEntry>, results: seq<ChildResult>, id: string, own: Status)
    requires LastVisitSucceeded(log, id) <==> own.IsSuccess()
    ensures LastVisitSucceeded(log + EntriesOf(results), id) <==> LastReport(own, results, id).IsSuccess()
    decreases |results|
  {
    hide LastVisitSucceeded;
    if results == [] {
      assert log + [] == log;
    } else {
      var n := |results| - 1;
      var last := results[n];
      ReportsDecide(log, results[..n], id, own);
      var front, e := log + EntriesOf(results[..n]), VisitEntry(last.id, last.outcome.status, 1);
      assert log + EntriesOf(results) == front + [e];
      LastVisitOfLonger(front, e, id);
    }
  }

  lemma LeapLogs(g: Graph, st: State, n: Node, a: Answer)
    ensures var logged := if Attr(n.attrs, "type") == "parallel" && "parallel.results" in st.context
                              && a.parallelResults.Some?
                          then a.parallelResults.value else [];
            LeapOver(g, st, n, a).state.visitLog == st.visitLog + EntriesOf(logged)
  {
    hide FindConvergence, FirstGrandchild, Successors;
    if a.parallelResults.Some? {
      AbsorbLogs(st, a.parallelResults.value);
    }
    assert st.visitLog + EntriesOf([]) == st.visitLog;
  }

  predicate LeavesAs(s: StepResult, final: Status) {
    && Leaves(s.move)
    && (s.move.FollowEdge? ==> s.move.final == final)
    && (s.move.Jump? ==> s.move.final == final)
  }

  lemma LeaveLogs(cfg: Config, st: State, n: Node, o: Outcome, a: Answer)
    ensures var s := LeaveStep(cfg, st, n, o, a);
            && LeavesAs(s, o.status)
            && s.state.visitLog ==
                  LeapOver(cfg.graph, st.(completed := st.completed + {st.current}), n, a).state.visitLog
  {
    hide LeapOver, SelectEdge, ChoiceOf;
  }

  /** A stage is left exactly when it asks for no retry or has none left, unless
      it is a gate that failed; it goes with its final status, and its log entry
      keeps the status that the handler returned, with the children's behind it. */
  lemma {:induction false} StageLeaves(cfg: Config, st: State, n: Node, a: Answer)
    requires a.reply.Some?
    ensures var s, own := StageStep(cfg, st, n, a), a.reply.value.status;
            && (Leaves(s.move) <==> NoRetryAsked(n, own) || Exhausted(cfg, st, n, own))
            && (Leaves(s.move) ==>
                  && LeavesAs(s, FinalStatus(n, own))
                  && s.state.visitLog ==
                       st.visitLog + [VisitEntry(st.current, own, Count(st.retries, st.current) + 1)]
                       + EntriesOf(Absorbed(st, n, a)))
  {
    hide LeaveStep, RetryStep, LeapOver, IsGate, MaxRetries, EntriesOf;
    var o := a.reply.value;
    var st2 := AfterOutcome(AfterHandler(st, a), o);
    var o' := o.(status := FinalStatus(n, o.status));
    LeaveLogs(cfg, st2, n, o', a);
    LeapLogs(cfg.graph, st2.(completed := st2.completed + {st2.current}), n, a);
    RetryStays(cfg, st2, n, a);
  }

  lemma RetryStays(cfg: Config, st: State, n: Node, a: Answer)
    ensures !Leaves(RetryStep(cfg, st, n, a).move)
  {
    hide PolicyOf, DelayForAttempt;
  }

  predicate AtStage(cfg: Config, st: State, n: Node, a: Answer) {
    NodeByID(cfg.graph, st.current) == Some(n) && !IsExit(n) && !a.cancelled && a.reply.Some?
  }

  lemma StageIsLeave(cfg: Config, st: State, n: Node, a: Answer)
    requires a.reply.Some?
    requires NoRetryAsked(n, a.reply.value.status) || Exhausted(cfg, st, n, a.reply.value.status)
    ensures var o := a.reply.value;
            StageStep(cfg, st, n, a) ==
              LeaveStep(cfg, AfterOutcome(AfterHandler(st, a), o), n, o.(status := FinalStatus(n, o.status)), a)
  {
    hide LeaveStep, RetryStep, AfterOutcome, AfterHandler, IsGate, MaxRetries;
  }

  lemma StepIsStage(cfg: Config, st: State, n: Node, a: Answer)
    requires AtStage(cfg, st, n, a)
    ensures Step(cfg, st, a) == StageStep(cfg, st, n, a)
  {
    hide StageStep, ExitStep, IsExit;
  }

  /** A node that has been left counts as succeeded for the exit check exactly when
      the last report under its ID, its own or a child's, was a success: whatever
      status it was left with. */
  lemma {:induction false} LeftNodeSucceeded(cfg: Config, st: State, n: Node, a: Answer)
    requires AtStage(cfg, st, n, a) && Leaves(Step(cfg, st, a).move)
    ensures LastVisitSucceeded(Step(cfg, st, a).state.visitLog, n.id)
       <==> LastReport(a.reply.value.status, Absorbed(st, n, a), n.id).IsSuccess()
  {
    hide LastVisitSucceeded, EntriesOf, Absorbed, StageStep, IsExit, Leaves;
    var own := a.reply.value.status;
    StageLeaves(cfg, st, n, a);
    var e := VisitEntry(st.current, own, Count(st.retries, st.current) + 1);
    LastVisitOfLonger(st.visitLog, e, n.id);
    ReportsDecide(st.visitLog + [e], Absorbed(st, n, a), n.id, own);
  }

  /** No child's result is logged under the node's own ID. */
  predicate NoReportFor(results: seq<ChildResult>, id: string) {
    forall i :: 0 <= i < |results| ==> results[i].id != id
  }

  lemma {:induction false} OwnReport(own: Status, results: seq<ChildResult>, id: string)
    requires NoReportFor(results, id)
    ensures LastReport(own, results, id) == own
  {
    if results != [] {
      OwnReport(own, results[..|results| - 1], id);
    }
  }

  function FinalOf(m: Move): Status
    requires m.FollowEdge? || m.Jump?
  {
    match m
    case FollowEdge(_, _, final) => final
    case Jump(_, _, _, final) => final
  }

  predicate Disagree(s: StepResult, n: Node)
    requires s.move.FollowEdge? || s.move.Jump?
  {
    FinalOf(s.move).IsSuccess() && !LastVisitSucceeded(s.state.visitLog, n.id)
  }

  /** The edge and the exit check disagree about a node of any type, the one taking
      it for a success and the other not, exactly when it ran out of retries under
      allow_partial; they never disagree the other way. */
  lemma {:induction false} ExitDisagrees(cfg: Config, st: State, n: Node, a: Answer)
    requires AtStage(cfg, st, n, a) && NoReportFor(Absorbed(st, n, a), n.id)
    requires var m := Step(cfg, st, a).move; m.FollowEdge? || m.Jump?
    ensures var s := Step(cfg, st, a);
            && (Disagree(s, n) <==> a.reply.value.status == Retry && BoolAttr(n.attrs, "allow_partial", false))
            && (LastVisitSucceeded(s.state.visitLog, n.id) ==> FinalOf(s.move).IsSuccess())
  {
    hide LastVisitSucceeded, Absorbed, StageStep, IsExit, EntriesOf;
    StageLeaves(cfg, st, n, a);
    LeftNodeSucceeded(cfg, st, n, a);
    OwnReport(a.reply.value.status, Absorbed(st, n, a), n.id);
  }

  /** So a gate with allow_partial that runs out of retries is left with
      PARTIAL_SUCCESS, but its log entry says RETRY: the exit will not accept it. */
  lemma {:induction false} PartialGateStaysUnsatisfied(cfg: Config, st: State, n: Node, a: Answer)
    requires AtStage(cfg, st, n, a) && IsGate(n) && BoolAttr(n.attrs, "allow_partial", false)
    requires a.reply.value.status == Retry && Count(st.retries, n.id) >= MaxRetries(cfg.graph, n)
    ensures var s := Step(cfg, st, a);
            && LeavesAs(s, PartialSuccess)
            && (NoReportFor(Absorbed(st, n, a), n.id) ==> !LastVisitSucceeded(s.state.visitLog, n.id))
  {
    hide LastVisitSucceeded, Absorbed, StageStep, IsExit, EntriesOf, MaxRetries;
    StageLeaves(cfg, st, n, a);
    LeftNodeSucceeded(cfg, st, n, a);
    if NoReportFor(Absorbed(st, n, a), n.id) {
      OwnReport(Retry, Absorbed(st, n, a), n.id);
    }
  }

  /** The first FAIL of a gate that does not say max_retries ends the run exactly
      when the graph's default allows no retry; otherwise it is retried. */
  lemma {:induction false} FirstFailOfGate(cfg: Config, st: State, n: Node, a: Answer)
    requires AtStage(cfg, st, n, a) && IsGate(n) && "max_retries" !in n.attrs
    requires a.reply.value.status == Fail && Count(st.retries, n.id) == 0
    ensures var s, allowed := Step(cfg, st, a), IntAttr(cfg.graph.attrs, "default_max_retry", 50);
            && (s.verdict == Failed(GateFailed(n.id)) <==> allowed <= 0)
            && (allowed > 0 ==> s.move.RetryInPlace? && Count(s.state.retries, n.id) == 1
                                && (s.verdict == Running || (a.cancelledInSleep && s.verdict == Failed(Cancelled))))
  {
    hide LeaveStep, IsExit, IsGate, PolicyOf, DelayForAttempt;
  }
}
