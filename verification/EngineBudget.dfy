/** Retries are bounded: per node, in number over a whole run, and in the time
    spent waiting for them. */
module EngineBudget {
  import opened Text
  import opened Model
  import opened Runtime
  import opened EngineSpec
  import opened EngineMoves

  /** max(0, max_retries) of a node. */
  function Allowance(g: Graph, n: Node): nat {
    var m := MaxRetries(g, n);
    if m > 0 then m else 0
  }

  predicate WithinBudget(g: Graph, st: State) {
    && (forall id :: id in st.retries ==> HasNode(g, id))
    && (forall n :: n in g.nodes ==> Count(st.retries, n.id) <= Allowance(g, n))
  }

  predicate IsRetryMove(m: Move) {
    m.RetryInPlace? || m.ExitRedirect?
  }

  /** The node whose counter a retry move spends. */
  function Charged(m: Move): string
    requires IsRetryMove(m)
  {
    match m
    case RetryInPlace(at, _) => at
    case ExitRedirect(_, gate, _) => gate
  }

  function SleepOf(m: Move): int {
    if m.RetryInPlace? then m.delayMs else 0
  }

  function CapOf(cfg: Config, n: Node): (cap: nat)
  {
    PolicyOf(cfg, n).maxDelayMs
  }

  /** A retry move spends one unit of a node that had one left and waits no longer
      than the node's policy allows; no other move touches a counter. */
  predicate StepCharges(cfg: Config, st: State, s: StepResult) {
    if IsRetryMove(s.move) then
      var id := Charged(s.move);
      var n := NodeByID(cfg.graph, id);
      && n.Some?
      && Count(st.retries, id) < MaxRetries(cfg.graph, n.value)
      && s.state.retries == st.retries[id := Count(st.retries, id) + 1]
      && 0 <= SleepOf(s.move) <= CapOf(cfg, n.value)
    else s.state.retries == st.retries
  }

  lemma {:induction false} RetryCharges(cfg: Config, st: State, n: Node, a: Answer)
    requires NodeByID(cfg.graph, st.current) == Some(n) && 0.0 <= a.draw < 1.0
    requires Count(st.retries, st.current) < MaxRetries(cfg.graph, n)
    ensures StepCharges(cfg, st, RetryStep(cfg, st, n, a))
  {
    hide PolicyOf, MaxRetries;
    DelayBounds(PolicyOf(cfg, n), Count(st.retries, st.current) + 1, a.draw);
  }

  lemma TransitionCharges(cfg: Config, st: State, o: Outcome)
    ensures StepCharges(cfg, st, TransitionStep(cfg, st, st.current, o))
  {
    hide OutEdges, ChoiceOf;
  }

  lemma {:induction false} LeaveCharges(cfg: Config, st: State, n: Node, o: Outcome, a: Answer)
    ensures StepCharges(cfg, st, LeaveStep(cfg, st, n, o, a))
  {
    hide LeapOver, TransitionStep;
    var st1 := st.(completed := st.completed + {st.current});
    LeapIsTwoEdges(cfg.graph, st1, n, a);
    var leap := LeapOver(cfg.graph, st1, n, a);
    if leap.over.None? {
      TransitionCharges(cfg, leap.state, o);
    }
  }

  lemma SameCounters(cfg: Config, st: State, t: State, s: StepResult)
    requires st.retries == t.retries && StepCharges(cfg, t, s)
    ensures StepCharges(cfg, st, s)
  {
    hide MaxRetries, CapOf;
  }

  lemma AbortCharges(cfg: Config, st: State, s: StepResult)
    requires s.move.Abort? && s.state.retries == st.retries
    ensures StepCharges(cfg, st, s)
  {
  }

  lemma {:induction false} StageCharges(cfg: Config, st: State, n: Node, a: Answer)
    requires NodeByID(cfg.graph, st.current) == Some(n) && 0.0 <= a.draw < 1.0
    ensures StepCharges(cfg, st, StageStep(cfg, st, n, a))
  {
    hide LeaveStep, RetryStep, IsGate, Count, MaxRetries, AfterHandler, AfterOutcome,
         FinalStatus, StepCharges, NodeByID;
    var s := StageStep(cfg, st, n, a);
    if a.reply.Some? {
      var o := a.reply.value;
      OutcomeKeepsPlace(st, a, o);
      var st2 := AfterOutcome(AfterHandler(st, a), o);
      if Count(st.retries, st.current) < MaxRetries(cfg.graph, n) {
        RetryCharges(cfg, st2, n, a);
      }
      LeaveCharges(cfg, st2, n, o.(status := FinalStatus(n, o.status)), a);
      if s.state == st2 && s.move.Abort? {
        AbortCharges(cfg, st2, s);
      }
      SameCounters(cfg, st, st2, s);
    } else {
      OutcomeKeepsPlace(st, a, Outcome(Fail, "", [], map[]));
      AbortCharges(cfg, st, s);
    }
  }

  lemma {:induction false} ExitCharges(cfg: Config, st: State)
    requires WellFormed(cfg.graph)
    ensures StepCharges(cfg, st, ExitStep(cfg, st))
  {
    hide WellFormed, RetryCandidates, MaxRetries, PolicyOf, IsGate;
    var g := cfg.graph;
    if CheckGoalGates(g, st.visitLog) != "" {
      var gate := FirstUnsatisfied(g.nodes, LatestStatus(st.visitLog)).value;
      assert HasNode(g, gate.id);
      NodeAt(g, gate.id);
    }
  }

  lemma {:induction false} StepChargesOnce(cfg: Config, st: State, a: Answer)
    requires WellFormed(cfg.graph) && Placed(cfg.graph, st) && 0.0 <= a.draw < 1.0
    ensures StepCharges(cfg, st, Step(cfg, st, a))
  {
    hide WellFormed, IsExit, ExitStep, StageStep;
    NodeAt(cfg.graph, st.current);
    var n := NodeByID(cfg.graph, st.current).value;
    if IsExit(n) { ExitCharges(cfg, st); } else { StageCharges(cfg, st, n, a); }
  }

  // ---- sums over the nodes ----

  /** The counters of the nodes, each times the node's weight. */
  function Weighted(nodes: seq<Node>, retries: map<string, nat>, w: Node -> nat): nat {
    if nodes == [] then 0 else Count(retries, nodes[0].id) * w(nodes[0]) + Weighted(nodes[1..], retries, w)
  }

  function EachOnce(): Node -> nat {
    n => 1
  }

  function EachCap(cfg: Config): Node -> nat {
    n => CapOf(cfg, n)
  }

  /** The same sum with every counter at its allowance. */
  function WeightedAllowance(g: Graph, nodes: seq<Node>, w: Node -> nat): nat {
    hide Allowance;
    if nodes == [] then 0 else Allowance(g, nodes[0]) * w(nodes[0]) + WeightedAllowance(g, nodes[1..], w)
  }

  lemma {:induction false} WeightedElsewhere(nodes: seq<Node>, retries: map<string, nat>, id: string, k: nat,
    w: Node -> nat)
    requires forall n :: n in nodes ==> n.id != id
    ensures Weighted(nodes, retries[id := k], w) == Weighted(nodes, retries, w)
  {
    if nodes != [] {
      WeightedElsewhere(nodes[1..], retries, id, k, w);
    }
  }

  lemma {:induction false} WeightedBump(nodes: seq<Node>, retries: map<string, nat>, n: Node, w: Node -> nat)
    requires DistinctIDs(nodes) && n in nodes
    ensures Weighted(nodes, retries[n.id := Count(retries, n.id) + 1], w) == Weighted(nodes, retries, w) + w(n)
  {
    var c := Count(retries, n.id);
    if nodes[0] == n {
      assert (c + 1) * w(n) == c * w(n) + w(n);
      WeightedElsewhere(nodes[1..], retries, n.id, c + 1, w);
    } else {
      WeightedBump(nodes[1..], retries, n, w);
    }
  }

  lemma {:induction false} WeightedWithinAllowance(g: Graph, nodes: seq<Node>, retries: map<string, nat>,
    w: Node -> nat)
    requires forall n :: n in nodes ==> Count(retries, n.id) <= Allowance(g, n)
    ensures Weighted(nodes, retries, w) <= WeightedAllowance(g, nodes, w)
  {
    if nodes != [] {
      ProductMonotone(Count(retries, nodes[0].id), Allowance(g, nodes[0]), w(nodes[0]));
      WeightedWithinAllowance(g, nodes[1..], retries, w);
    }
  }

  lemma ProductMonotone(a: nat, b: nat, c: nat)
    requires a <= b
    ensures a * c <= b * c
  {
    assert b * c - a * c == (b - a) * c;
  }

  // ---- runs ----

  function RetryMoves(trace: seq<Move>): nat {
    if trace == [] then 0 else (if IsRetryMove(trace[0]) then 1 else 0) + RetryMoves(trace[1..])
  }

  function TotalSleep(trace: seq<Move>): int {
    if trace == [] then 0 else SleepOf(trace[0]) + TotalSleep(trace[1..])
  }

  predicate Fair(answers: seq<Answer>) {
    forall i :: 0 <= i < |answers| ==> 0.0 <= answers[i].draw < 1.0
  }

  ghost predicate NeverFewer(before: map<string, nat>, after: map<string, nat>) {
    forall id :: Count(before, id) <= Count(after, id)
  }

  /** The accounts of a stretch of a run: `spent` retry moves and `slept` ms. */
  ghost predicate Accounts(cfg: Config, before: State, after: State, spent: int, slept: int) {
    var nodes := cfg.graph.nodes;
    && WithinBudget(cfg.graph, after)
    && NeverFewer(before.retries, after.retries)
    && Weighted(nodes, after.retries, EachOnce()) == Weighted(nodes, before.retries, EachOnce()) + spent
    && slept <= Weighted(nodes, after.retries, EachCap(cfg)) - Weighted(nodes, before.retries, EachCap(cfg))
  }

  lemma DistinctIDsOf(g: Graph)
    requires WellFormed(g)
    ensures DistinctIDs(g.nodes)
  {
  }

  lemma {:induction false} StepAccounts(cfg: Config, st: State, s: StepResult)
    requires WellFormed(cfg.graph) && WithinBudget(cfg.graph, st) && StepCharges(cfg, st, s)
    ensures Accounts(cfg, st, s.state, if IsRetryMove(s.move) then 1 else 0, SleepOf(s.move))
  {
    hide WellFormed, PolicyOf, MaxRetries, WithinBudget, DistinctIDs;
    var g := cfg.graph;
    DistinctIDsOf(g);
    StepWithinBudget(cfg, st, s);
    if IsRetryMove(s.move) {
      var n := NodeByID(g, Charged(s.move)).value;
      WeightedBump(g.nodes, st.retries, n, EachOnce());
      WeightedBump(g.nodes, st.retries, n, EachCap(cfg));
    }
  }

  lemma StepWithinBudget(cfg: Config, st: State, s: StepResult)
    requires WellFormed(cfg.graph) && WithinBudget(cfg.graph, st) && StepCharges(cfg, st, s)
    ensures WithinBudget(cfg.graph, s.state)
  {
    hide WellFormed, PolicyOf, MaxRetries, CapOf;
    var g := cfg.graph;
    if IsRetryMove(s.move) {
      var n := NodeByID(g, Charged(s.move)).value;
      forall m | m in g.nodes ensures Count(s.state.retries, m.id) <= Allowance(g, m) {
        if m.id == n.id { NodeAt(g, n.id); }
      }
    }
  }

  lemma {:induction false} RunAccounts(cfg: Config, st: State, answers: seq<Answer>)
    requires WellFormed(cfg.graph) && Placed(cfg.graph, st) && WithinBudget(cfg.graph, st) && Fair(answers)
    ensures var r := Run(cfg, st, answers); Accounts(cfg, st, r.state, RetryMoves(r.trace), TotalSleep(r.trace))
    decreases |answers|
  {
    hide Step, StepCharges, WithinBudget, WellFormed;
    if answers != [] {
      var s := Step(cfg, st, answers[0]);
      StepChargesOnce(cfg, st, answers[0]);
      StepAccounts(cfg, st, s);
      if s.verdict.Running? {
        StepIsLegal(cfg, st, answers[0]);
        RunAccounts(cfg, s.state, answers[1..]);
        var rest := Run(cfg, s.state, answers[1..]);
        assert After(s, rest).trace[1..] == rest.trace;
      }
    }
  }

  lemma {:induction false} NothingSpent(nodes: seq<Node>, w: Node -> nat)
    ensures Weighted(nodes, map[], w) == 0
  {
    if nodes != [] {
      NothingSpent(nodes[1..], w);
    }
  }

  /** The retry budget of every run from the start: no counter exceeds its node's
      allowance, the retry moves are exactly the counters' sum, so they are at most
      the allowances' sum, and the sleep is at most the allowances times the caps. */
  lemma {:induction false} RetryBudget(cfg: Config, start: Node, answers: seq<Answer>)
    requires WellFormed(cfg.graph) && StartNode(cfg.graph) == Some(start) && Fair(answers)
    ensures var r := Run(cfg, Fresh(cfg, start), answers);
            var nodes := cfg.graph.nodes;
            && WithinBudget(cfg.graph, r.state)
            && RetryMoves(r.trace) == Weighted(nodes, r.state.retries, EachOnce())
            && RetryMoves(r.trace) <= WeightedAllowance(cfg.graph, nodes, EachOnce())
            && TotalSleep(r.trace) <= WeightedAllowance(cfg.graph, nodes, EachCap(cfg))
  {
    hide Run, PolicyOf, MaxRetries;
    var st, nodes := Fresh(cfg, start), cfg.graph.nodes;
    FreshIsPlaced(cfg, start);
    RunAccounts(cfg, st, answers);
    var r := Run(cfg, st, answers);
    NothingSpent(nodes, EachOnce());
    NothingSpent(nodes, EachCap(cfg));
    WeightedWithinAllowance(cfg.graph, nodes, r.state.retries, EachOnce());
    WeightedWithinAllowance(cfg.graph, nodes, r.state.retries, EachCap(cfg));
  }
}
