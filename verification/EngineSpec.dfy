/** internal/attractor/engine.go as a state machine: one loop iteration of
    `execute` is one step. What handlers, the clock, the random generator and the
    cancellation do is the `Answer` of the step, and it is arbitrary. */
module EngineSpec {
  import opened Text
  import opened Model
  import opened Runtime
  import opened Selector

  datatype Config = Config(platform: Platform, graph: Graph, initialContext: map<string, string>)

  datatype State = State(
    current: string,
    retries: map<string, nat>,
    completed: set<string>,
    visitLog: seq<VisitEntry>,
    context: map<string, string>,
    logs: seq<string>,
    saved: Option<Checkpoint>)

  datatype ChildResult = ChildResult(id: string, outcome: Outcome)

  /** The environment's part in one iteration. A handler may write and delete any
      context entry and append to the log; `reply` is None for a handler error.
      `parallelResults` is the decoded "parallel.results" entry in the order in
      which the map is walked, None when it does not decode. */
  datatype Answer = Answer(
    cancelled: bool,
    deletes: set<string>,
    writes: map<string, string>,
    newLogs: seq<string>,
    reply: Option<Outcome>,
    draw: real,
    cancelledInSleep: bool,
    parallelResults: Option<seq<ChildResult>>)

  datatype Failure =
    | NoStartNode
    | Cancelled
    | NodeNotFound(id: string)
    | HandlerError(id: string)
    | GateUnsatisfied(id: string)
    | GateFailed(id: string)

  datatype Verdict = Running | Completed | Failed(why: Failure)

  /** What an iteration did. `final` is the status after the retry handling. */
  datatype Move =
    | FollowEdge(from: string, to: string, final: Status)
    | Jump(from: string, via: string, to: string, final: Status)
    | RetryInPlace(at: string, delayMs: int)
    | ExitRedirect(exit: string, gate: string, to: string)
    | ReachExit(at: string)
    | DeadEnd(at: string)
    | Abort(at: string)

  datatype StepResult = StepResult(state: State, verdict: Verdict, move: Move)

  // ---- small pieces ----

  function Count(retries: map<string, nat>, id: string): nat {
    if id in retries then retries[id] else 0
  }

  function MaxRetries(g: Graph, n: Node): int {
    IntAttr(n.attrs, "max_retries", IntAttr(g.attrs, "default_max_retry", 50))
  }

  predicate IsGate(n: Node) {
    BoolAttr(n.attrs, "goal_gate", false)
  }

  predicate IsExit(n: Node) {
    Attr(n.attrs, "shape") == "Msquare"
  }

  function Digits(n: nat): string {
    var d := [('0' as int + n % 10) as char];
    if n < 10 then d else Digits(n / 10) + d
  }

  /** saveCheckpoint: the file then holds exactly this. */
  function Save(st: State, node: string): State {
    st.(saved := Some(Checkpoint(node, st.completed, st.retries, st.context, st.logs, st.visitLog)))
  }

  /** One more retry of `id`, recorded in the counter and in the context. */
  function Bump(st: State, id: string): State {
    var n := Count(st.retries, id) + 1;
    st.(retries := st.retries[id := n], context := st.context["internal.retry_count." + id := Digits(n)])
  }

  // ---- goal gates ----

  function LatestStatus(log: seq<VisitEntry>): map<string, Status> {
    if log == [] then map[]
    else LatestStatus(log[..|log| - 1])[log[|log| - 1].nodeID := log[|log| - 1].status]
  }

  predicate GateSatisfied(latest: map<string, Status>, n: Node) {
    IsGate(n) ==> n.id in latest && latest[n.id].IsSuccess()
  }

  /** The first unsatisfied gate of `nodes`. */
  function FirstUnsatisfied(nodes: seq<Node>, latest: map<string, Status>): (r: Option<Node>)
    ensures r.Some? ==> r.value in nodes && IsGate(r.value) && !GateSatisfied(latest, r.value)
    ensures r.None? <==> forall n :: n in nodes ==> GateSatisfied(latest, n)
  {
    if nodes == [] then None
    else if !GateSatisfied(latest, nodes[0]) then Some(nodes[0])
    else FirstUnsatisfied(nodes[1..], latest)
  }

  /** checkGoalGates: the ID of that gate, or the empty string. */
  function CheckGoalGates(g: Graph, log: seq<VisitEntry>): string {
    match FirstUnsatisfied(g.nodes, LatestStatus(log))
    case Some(n) => n.id
    case None => ""
  }

  function FirstPresent(g: Graph, candidates: seq<string>): (r: Option<string>)
    ensures r.Some? ==> r.value in candidates && HasNode(g, r.value)
  {
    if candidates == [] then None
    else if candidates[0] != "" && NodeByID(g, candidates[0]).Some? then Some(candidates[0])
    else FirstPresent(g, candidates[1..])
  }

  function RetryCandidates(g: Graph, n: Node): seq<string> {
    [Attr(n.attrs, "retry_target"), Attr(n.attrs, "fallback_retry_target"),
     Attr(g.attrs, "retry_target"), Attr(g.attrs, "fallback_retry_target")]
  }

  /** resolveRetryTarget, with the gate itself when no candidate exists. */
  function RedirectTarget(g: Graph, gate: Node): string {
    match FirstPresent(g, RetryCandidates(g, gate))
    case Some(t) => t
    case None => gate.id
  }

  // ---- jumps over children that a handler has run ----

  /** A child's result taken over, as a visit of the child. */
  function Taken(st: State, c: ChildResult): State {
    st.(context := st.context + c.outcome.contextUpdates,
        completed := st.completed + {c.id},
        visitLog := st.visitLog + [VisitEntry(c.id, c.outcome.status, 1)])
  }

  function Absorb(st: State, results: seq<ChildResult>): State
    decreases |results|
  {
    if results == [] then st else Absorb(Taken(st, results[0]), results[1..])
  }

  predicate CommonSuccessor(g: Graph, children: seq<string>, id: string) {
    forall c :: c in children ==> id in Successors(g, c)
  }

  function FirstCommon(g: Graph, nodes: seq<Node>, children: seq<string>): (r: Option<string>)
    ensures r.Some? ==> CommonSuccessor(g, children, r.value)
  {
    if nodes == [] then None
    else if CommonSuccessor(g, children, nodes[0].id) then Some(nodes[0].id)
    else FirstCommon(g, nodes[1..], children)
  }

  function FindConvergence(g: Graph, children: seq<string>): (r: Option<string>)
    ensures r.Some? ==> children != [] && CommonSuccessor(g, children, r.value)
  {
    if children == [] then None else FirstCommon(g, g.nodes, children)
  }

  /** The first child that has a successor, with its first successor. */
  function FirstGrandchild(g: Graph, children: seq<string>): (r: Option<(string, string)>)
    ensures r.Some? ==> r.value.0 in children && r.value.1 in Successors(g, r.value.0)
  {
    if children == [] then None
    else
      var next := Successors(g, children[0]);
      if next != [] then Some((children[0], next[0])) else FirstGrandchild(g, children[1..])
  }

  // ---- one iteration ----

  function Step(cfg: Config, st: State, a: Answer): StepResult {
    if a.cancelled then StepResult(st, Failed(Cancelled), Abort(st.current))
    else
      match NodeByID(cfg.graph, st.current)
      case None => StepResult(st, Failed(NodeNotFound(st.current)), Abort(st.current))
      case Some(n) => if IsExit(n) then ExitStep(cfg, st) else StageStep(cfg, st, n, a)
  }

  function ExitStep(cfg: Config, st: State): StepResult {
    var g := cfg.graph;
    var gateID := CheckGoalGates(g, st.visitLog);
    if gateID != "" then
      var gate := FirstUnsatisfied(g.nodes, LatestStatus(st.visitLog)).value;
      if Count(st.retries, gateID) < MaxRetries(g, gate) then
        var target := RedirectTarget(g, gate);
        StepResult(Save(Bump(st, gateID), gateID).(current := target),
                   Running, ExitRedirect(st.current, gateID, target))
      else
        StepResult(st, Failed(GateUnsatisfied(gateID)), Abort(st.current))
    else
      StepResult(st.(completed := st.completed + {st.current},
                     visitLog := st.visitLog + [VisitEntry(st.current, Success, 1)]),
                 Completed, ReachExit(st.current))
  }

  /** The state after the handler ran: its own writes, then the engine's. */
  function AfterHandler(st: State, a: Answer): State {
    st.(context := st.context["current_node" := st.current] - a.deletes + a.writes,
        logs := st.logs + a.newLogs)
  }

  function AfterOutcome(st: State, o: Outcome): State {
    var merged := (st.context + o.contextUpdates)["outcome" := o.status.Text()];
    st.(context := if o.preferredLabel != "" then merged["preferred_label" := o.preferredLabel] else merged,
        visitLog := st.visitLog + [VisitEntry(st.current, o.status, Count(st.retries, st.current) + 1)])
  }

  /** The status once retries are out of the question. */
  function FinalStatus(n: Node, s: Status): Status {
    if s != Retry then s
    else if BoolAttr(n.attrs, "allow_partial", false) then PartialSuccess
    else Fail
  }

  function StageStep(cfg: Config, st: State, n: Node, a: Answer): StepResult {
    var st1 := AfterHandler(st, a);
    if a.reply.None? then StepResult(st1, Failed(HandlerError(st.current)), Abort(st.current))
    else
      var o := a.reply.value;
      var st2 := AfterOutcome(st1, o);
      var canRetry := Count(st.retries, st.current) < MaxRetries(cfg.graph, n);
      var final := FinalStatus(n, o.status);
      if o.status == Retry && canRetry then RetryStep(cfg, st2, n, a)
      else if final == Fail && IsGate(n) then
        if canRetry then RetryStep(cfg, st2, n, a)
        else StepResult(st2, Failed(GateFailed(st.current)), Abort(st.current))
      else LeaveStep(cfg, st2, n, o.(status := final), a)
  }

  function PolicyOf(cfg: Config, n: Node): (p: RetryPolicy)
    ensures Bounded(p)
  {
    PolicyByName(cfg.platform.chars, StringAttr(n.attrs, "retry_policy", "standard"))
  }

  function RetryStep(cfg: Config, st: State, n: Node, a: Answer): StepResult {
    var st1 := Save(Bump(st, st.current), st.current);
    var delay := DelayForAttempt(PolicyOf(cfg, n), Count(st1.retries, st.current), a.draw);
    var verdict := if delay > 0 && a.cancelledInSleep then Failed(Cancelled) else Running;
    StepResult(st1, verdict, RetryInPlace(st.current, delay))
  }

  function GoTo(st: State, next: string): State {
    Save(st, next).(current := next)
  }

  datatype Leap = Leap(state: State, over: Option<(string, string)>)

  /** What the engine does about children that the handler has already run: the
      state with their traces, and the child and the node to jump to, if any. */
  function LeapOver(g: Graph, st: State, n: Node, a: Answer): Leap {
    var kind := Attr(n.attrs, "type");
    if kind == "parallel" then AfterParallel(g, st, a)
    else if kind == "stack.manager_loop" then AfterManager(g, st)
    else Leap(st, None)
  }

  function AfterParallel(g: Graph, st: State, a: Answer): Leap {
    if "parallel.results" !in st.context || a.parallelResults.None? then Leap(st, None)
    else
      var children := Successors(g, st.current);
      match FindConvergence(g, children)
      case Some(next) => Leap(Absorb(st, a.parallelResults.value), Some((children[0], next)))
      case None => Leap(Absorb(st, a.parallelResults.value), None)
  }

  function AfterManager(g: Graph, st: State): Leap {
    var children := Successors(g, st.current);
    Leap(st.(completed := st.completed + set c | c in children), FirstGrandchild(g, children))
  }

  function LeaveStep(cfg: Config, st: State, n: Node, o: Outcome, a: Answer): StepResult {
    var leap := LeapOver(cfg.graph, st.(completed := st.completed + {st.current}), n, a);
    match leap.over
    case Some((via, next)) => StepResult(GoTo(leap.state, next), Running, Jump(st.current, via, next, o.status))
    case None => TransitionStep(cfg, leap.state, st.current, o)
  }

  function ChoiceOf(o: Outcome, context: map<string, string>): Choice {
    Choice(o.status, o.preferredLabel, o.suggestedNextIDs, context)
  }

  function TransitionStep(cfg: Config, st: State, id: string, o: Outcome): StepResult {
    match SelectEdge(cfg.platform, cfg.graph, id, ChoiceOf(o, st.context))
    case Some(e) => StepResult(GoTo(st, e.to), Running, FollowEdge(id, e.to, o.status))
    case None => StepResult(st, Completed, DeadEnd(id))
  }

  // ---- runs ----

  datatype RunResult = RunResult(state: State, verdict: Verdict, trace: seq<Move>)

  function After(s: StepResult, rest: RunResult): RunResult {
    rest.(trace := [s.move] + rest.trace)
  }

  function StopAt(s: StepResult): RunResult {
    RunResult(s.state, s.verdict, [s.move])
  }

  /** As many iterations as there are answers, or until the loop ends. */
  function Run(cfg: Config, st: State, answers: seq<Answer>): (r: RunResult)
    decreases |answers|
  {
    if answers == [] then RunResult(st, Running, [])
    else
      var s := Step(cfg, st, answers[0]);
      if s.verdict.Running? then After(s, Run(cfg, s.state, answers[1..])) else StopAt(s)
  }

  function InitialContext(cfg: Config): map<string, string> {
    var goal := Attr(cfg.graph.attrs, "goal");
    (if goal != "" then map["goal" := goal, "graph.goal" := goal] else map[]) + cfg.initialContext
  }

  /** The state in which a fresh run enters the loop. */
  function Fresh(cfg: Config, start: Node): State {
    State(start.id, map[], {}, [], InitialContext(cfg), [], None)
  }

  /** The state in which a run resumed from `cp` enters the loop. */
  function Resume(cfg: Config, start: Node, cp: Checkpoint): State
  {
    State(if cp.currentNode != "" then cp.currentNode else start.id,
          cp.retryCounters,
          {} + cp.completed,
          cp.visitLog,
          InitialContext(cfg) + cp.context,
          [] + cp.logs,
          Some(cp))
  }
}
