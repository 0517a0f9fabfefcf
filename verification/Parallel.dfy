/** internal/attractor/handler/parallel.go, Execute: the goroutines of a fan-out,
    their semaphore and the fail-fast cancel, as a system of interleaved steps. */
module Parallel {
  import opened Text
  import opened Runtime

  datatype BranchResult = BranchResult(nodeID: string, outcome: Outcome, failed: bool)

  datatype FanOut = FanOut(children: seq<string>, maxParallel: int, failFast: bool)

  /** Where a goroutine stands: before the select, with a slot, past the check of
      the context, inside the child, with its result written, at its deferred
      release, finished. */
  datatype Phase = Waiting | Holding | Cleared | Executing | Reported(bad: bool) | Leaving | Done

  datatype Event = Started(child: nat) | Returned(child: nat, bad: bool)

  datatype State = State(
    phases: seq<Phase>,
    slots: nat,               // filled places in the semaphore channel
    cancelled: bool,          // the derived context
    results: seq<Option<BranchResult>>,
    writes: seq<nat>,         // how often each result was assigned
    late: seq<bool>,          // got its slot when the context was already cancelled
    log: seq<Event>)

  datatype Action =
    | Acquire(i: nat)
    | GiveUp(i: nat)
    | Check(i: nat)
    | Start(i: nat)
    | Return(i: nat, outcome: Outcome, failed: bool)
    | React(i: nat)
    | Release(i: nat)
    | ParentCancel

  function Capacity(f: FanOut): int {
    if f.maxParallel < 1 then 1 else f.maxParallel
  }

  const CANCELLED := Outcome(Fail, "", [], map[])

  function Initial(f: FanOut): State {
    var n := |f.children|;
    State(seq(n, _ => Waiting), 0, false, seq(n, _ => None), seq(n, _ => 0), seq(n, _ => false), [])
  }

  function At(st: State, i: nat, p: Phase): State
    requires i < |st.phases|
  {
    st.(phases := st.phases[i := p])
  }

  function Write(st: State, i: nat, r: BranchResult): State
    requires i < |st.results| && i < |st.writes|
  {
    st.(results := st.results[i := Some(r)], writes := st.writes[i := st.writes[i] + 1])
  }

  predicate Shaped(f: FanOut, st: State) {
    |st.phases| == |st.results| == |st.writes| == |st.late| == |f.children|
  }

  predicate InPhase(st: State, i: nat, p: Phase) {
    i < |st.phases| && st.phases[i] == p
  }

  predicate Enabled(f: FanOut, st: State, a: Action) {
    match a
    case Acquire(i) => InPhase(st, i, Waiting) && st.slots < Capacity(f)
    case GiveUp(i) => InPhase(st, i, Waiting) && st.cancelled
    case Check(i) => InPhase(st, i, Holding)
    case Start(i) => InPhase(st, i, Cleared)
    case Return(i, _, _) => InPhase(st, i, Executing)
    case React(i) => i < |st.phases| && st.phases[i].Reported?
    case Release(i) => InPhase(st, i, Leaving)
    case ParentCancel => !st.cancelled
  }

  function Next(f: FanOut, st: State, a: Action): State
    requires Shaped(f, st) && Enabled(f, st, a)
  {
    match a
    case Acquire(i) =>
      At(st, i, Holding).(slots := st.slots + 1, late := st.late[i := st.cancelled])
    case GiveUp(i) =>
      At(Write(st, i, BranchResult(f.children[i], CANCELLED, true)), i, Done)
    case Check(i) =>
      if st.cancelled then At(Write(st, i, BranchResult(f.children[i], CANCELLED, true)), i, Leaving)
      else At(st, i, Cleared)
    case Start(i) =>
      At(st, i, Executing).(log := st.log + [Started(i)])
    case Return(i, outcome, failed) =>
      var bad := failed || !outcome.status.IsSuccess();
      At(Write(st, i, BranchResult(f.children[i], outcome, failed)), i, Reported(bad))
        .(log := st.log + [Returned(i, bad)])
    case React(i) =>
      At(st, i, Leaving).(cancelled := st.cancelled || (f.failFast && st.phases[i].bad))
    case Release(i) =>
      At(st, i, Done).(slots := if st.slots > 0 then st.slots - 1 else 0)
    case ParentCancel =>
      st.(cancelled := true)
  }

  /** The state after the actions, if each was enabled in its turn. */
  function Exec(f: FanOut, st: State, actions: seq<Action>): Option<State>
    requires Shaped(f, st)
    decreases |actions|
  {
    if actions == [] then Some(st)
    else if !Enabled(f, st, actions[0]) then None
    else Exec(f, Next(f, st, actions[0]), actions[1..])
  }

  // ---- counting ----

  predicate Holds(p: Phase) {
    p.Holding? || p.Cleared? || p.Executing? || p.Reported? || p.Leaving?
  }

  function One(b: bool): nat {
    if b then 1 else 0
  }

  function Holders(phases: seq<Phase>): nat {
    if phases == [] then 0 else One(Holds(phases[0])) + Holders(phases[1..])
  }

  function Running(phases: seq<Phase>): nat {
    if phases == [] then 0 else One(phases[0].Executing?) + Running(phases[1..])
  }

  function Remaining(p: Phase): nat {
    match p
    case Waiting => 6
    case Holding => 5
    case Cleared => 4
    case Executing => 3
    case Reported(_) => 2
    case Leaving => 1
    case Done => 0
  }

  function Work(phases: seq<Phase>): nat {
    if phases == [] then 0 else Remaining(phases[0]) + Work(phases[1..])
  }

  lemma {:induction false} Recount(phases: seq<Phase>, i: nat, p: Phase)
    requires i < |phases|
    ensures Holders(phases[i := p]) + One(Holds(phases[i])) == Holders(phases) + One(Holds(p))
    ensures Work(phases[i := p]) + Remaining(phases[i]) == Work(phases) + Remaining(p)
  {
    if i > 0 {
      assert phases[i := p][1..] == phases[1..][i - 1 := p];
      Recount(phases[1..], i - 1, p);
    } else {
      assert phases[i := p][1..] == phases[1..];
    }
  }

  lemma {:induction false} RunningAreHolders(phases: seq<Phase>)
    ensures Running(phases) <= Holders(phases)
  {
    if phases != [] {
      RunningAreHolders(phases[1..]);
    }
  }

  lemma {:induction false} OneHolder(phases: seq<Phase>, i: nat)
    requires i < |phases| && Holds(phases[i])
    ensures Holders(phases) >= 1
  {
    if i > 0 {
      OneHolder(phases[1..], i - 1);
    }
  }

  lemma {:induction false} TwoHolders(phases: seq<Phase>, i: nat, j: nat)
    requires i < j < |phases| && Holds(phases[i]) && Holds(phases[j])
    ensures Holders(phases) >= 2
  {
    if i > 0 {
      TwoHolders(phases[1..], i - 1, j - 1);
    } else {
      OneHolder(phases[1..], j - 1);
    }
  }

  // ---- what every interleaving keeps ----

  predicate Written(p: Phase) {
    p.Reported? || p.Leaving? || p.Done?
  }

  /** One goroutine: its result is written once, under its own ID, exactly when it
      is past the write; it was not late if it got past the check. */
  predicate Member(f: FanOut, st: State, i: nat)
    requires Shaped(f, st) && i < |f.children|
  {
    && (st.results[i].Some? <==> Written(st.phases[i]))
    && st.writes[i] == One(Written(st.phases[i]))
    && (st.results[i].Some? ==> st.results[i].value.nodeID == f.children[i])
    && (st.late[i] ==> st.cancelled && (st.phases[i].Holding? || Written(st.phases[i])) && Started(i) !in st.log)
    && (st.phases[i] in {Waiting, Holding, Cleared} ==> Started(i) !in st.log)
  }

  predicate HasFailure(log: seq<Event>) {
    exists e :: e in log && e.Returned? && e.bad
  }

  /** A failure has cancelled the context, or its goroutine is about to. */
  predicate FailureSeen(st: State) {
    HasFailure(st.log) ==> st.cancelled || exists i :: 0 <= i < |st.phases| && st.phases[i] == Reported(true)
  }

  predicate NoStartAfterFailure(log: seq<Event>) {
    forall b :: 0 <= b < |log| && log[b].Started? ==> !HasFailure(log[..b])
  }

  /** With one slot: once a child has failed, none is running or about to. */
  predicate QuietAfterFailure(st: State) {
    HasFailure(st.log) ==> forall j :: 0 <= j < |st.phases| ==> !st.phases[j].Cleared? && !st.phases[j].Executing?
  }

  predicate Inv(f: FanOut, st: State) {
    && Shaped(f, st)
    && st.slots == Holders(st.phases) <= Capacity(f)
    && (forall i :: 0 <= i < |f.children| ==> Member(f, st, i))
    && (f.failFast ==> FailureSeen(st))
    && (f.failFast && Capacity(f) == 1 ==> QuietAfterFailure(st) && NoStartAfterFailure(st.log))
  }

  lemma InitialInv(f: FanOut)
    ensures Inv(f, Initial(f))
  {
    NobodyHolds(|f.children|);
  }

  lemma {:induction false} NobodyHolds(n: nat)
    ensures Holders(seq(n, _ => Waiting)) == 0 && Work(seq(n, _ => Waiting)) == 6 * n
  {
    if n > 0 {
      assert seq(n, _ => Waiting)[1..] == seq(n - 1, _ => Waiting);
      NobodyHolds(n - 1);
    }
  }

  /** The goroutine an action belongs to, and where the action takes it. */
  function Actor(a: Action): nat
    requires !a.ParentCancel?
  {
    a.i
  }

  lemma StepCounts(f: FanOut, st: State, a: Action)
    requires Inv(f, st) && Enabled(f, st, a)
    ensures var t := Next(f, st, a);
            Shaped(f, t) && t.slots == Holders(t.phases) <= Capacity(f)
            && Work(t.phases) + One(!t.cancelled) < Work(st.phases) + One(!st.cancelled)
  {
    hide Member, FailureSeen, QuietAfterFailure, NoStartAfterFailure;
    if !a.ParentCancel? {
      var t := Next(f, st, a);
      Recount(st.phases, Actor(a), t.phases[Actor(a)]);
      assert t.phases == st.phases[Actor(a) := t.phases[Actor(a)]];
      if a.Release? {
        OneHolder(st.phases, a.i);
      }
    }
  }

  lemma StepMember(f: FanOut, st: State, a: Action, j: nat)
    requires Inv(f, st) && Enabled(f, st, a) && j < |f.children|
    ensures Member(f, Next(f, st, a), j)
  {
    hide FailureSeen, QuietAfterFailure, NoStartAfterFailure, Holders;
    assert Member(f, st, j);
  }

  lemma LogGrows(log: seq<Event>, e: Event)
    ensures HasFailure(log + [e]) <==> HasFailure(log) || (e.Returned? && e.bad)
    ensures NoStartAfterFailure(log) && (e.Started? ==> !HasFailure(log)) ==> NoStartAfterFailure(log + [e])
  {
    assert e in log + [e];
    assert forall x :: x in log ==> x in log + [e];
    forall b | 0 <= b < |log| ensures (log + [e])[..b] == log[..b] {}
    assert (log + [e])[..|log|] == log;
  }

  lemma StepFailureSeen(f: FanOut, st: State, a: Action)
    requires Inv(f, st) && Enabled(f, st, a) && f.failFast
    ensures FailureSeen(Next(f, st, a))
  {
    hide Member, QuietAfterFailure, NoStartAfterFailure, Holders, HasFailure;
    var t := Next(f, st, a);
    match a {
      case Start(i) => LogGrows(st.log, Started(i));
      case Return(i, outcome, failed) =>
        LogGrows(st.log, Returned(i, failed || !outcome.status.IsSuccess()));
      case _ =>
    }
    if HasFailure(st.log) && !st.cancelled {
      var k :| 0 <= k < |st.phases| && st.phases[k] == Reported(true);
      assert t.cancelled || t.phases[k] == Reported(true);
    }
    if a.Return? {
      assert t.phases[a.i].Reported?;
    }
  }

  /** While a failed child still has the only slot, no other goroutine has one. */
  lemma Alone(f: FanOut, st: State, i: nat, j: nat)
    requires Inv(f, st) && Capacity(f) == 1
    requires i < |st.phases| && j < |st.phases| && Holds(st.phases[i]) && Holds(st.phases[j])
    ensures i == j
  {
    if i < j { TwoHolders(st.phases, i, j); }
    if j < i { TwoHolders(st.phases, j, i); }
  }

  lemma StepQuiet(f: FanOut, st: State, a: Action)
    requires Inv(f, st) && Enabled(f, st, a) && f.failFast && Capacity(f) == 1
    ensures var t := Next(f, st, a); QuietAfterFailure(t) && NoStartAfterFailure(t.log)
  {
    hide Member, Holders, HasFailure, NoStartAfterFailure;
    match a {
      case Check(i) =>
        if HasFailure(st.log) && !st.cancelled {
          var k :| 0 <= k < |st.phases| && st.phases[k] == Reported(true);
          Alone(f, st, i, k);
        }
      case Start(i) =>
        LogGrows(st.log, Started(i));
      case Return(i, outcome, failed) =>
        LogGrows(st.log, Returned(i, failed || !outcome.status.IsSuccess()));
        forall j | 0 <= j < |st.phases| && j != i ensures !st.phases[j].Cleared? && !st.phases[j].Executing? {
          if Holds(st.phases[j]) { Alone(f, st, i, j); }
        }
      case _ =>
    }
  }

  lemma StepInv(f: FanOut, st: State, a: Action)
    requires Inv(f, st) && Enabled(f, st, a)
    ensures Inv(f, Next(f, st, a))
  {
    hide Next, Enabled, Member, FailureSeen, QuietAfterFailure, NoStartAfterFailure;
    StepCounts(f, st, a);
    forall j | 0 <= j < |f.children| ensures Member(f, Next(f, st, a), j) {
      StepMember(f, st, a, j);
    }
    if f.failFast {
      StepFailureSeen(f, st, a);
      if Capacity(f) == 1 {
        StepQuiet(f, st, a);
      }
    }
  }

  lemma {:induction false} ExecInv(f: FanOut, st: State, actions: seq<Action>)
    requires Inv(f, st) && Exec(f, st, actions).Some?
    ensures var t := Exec(f, st, actions).value;
            Inv(f, t) && |actions| + Work(t.phases) + One(!t.cancelled) <= Work(st.phases) + One(!st.cancelled)
    decreases |actions|
  {
    hide Inv, Next, Enabled, Shaped;
    assert Shaped(f, st) by { InvShaped(f, st); }
    if actions != [] {
      StepInv(f, st, actions[0]);
      StepCounts(f, st, actions[0]);
      ExecInv(f, Next(f, st, actions[0]), actions[1..]);
    }
  }

  lemma InvShaped(f: FanOut, st: State)
    requires Inv(f, st)
    ensures Shaped(f, st)
  {
  }

  // ---- the theorems, over all interleavings ----

  /** In every reachable state at most max(1, max_parallel) children run, no result
      has been written twice or under another child's ID, a goroutine that got its
      slot after the cancel has not run its child, and under fail_fast with one
      slot no child has started after a failing one. */
  lemma EveryInterleaving(f: FanOut, actions: seq<Action>)
    requires Exec(f, Initial(f), actions).Some?
    ensures var st := Exec(f, Initial(f), actions).value;
            && Shaped(f, st)
            && Running(st.phases) <= Capacity(f)
            && (forall i :: 0 <= i < |f.children| ==>
                  st.writes[i] <= 1 && (st.results[i].Some? ==> st.results[i].value.nodeID == f.children[i]))
            && (forall i :: 0 <= i < |f.children| ==> st.late[i] ==> Started(i) !in st.log)
            && (f.failFast && Capacity(f) == 1 ==> NoStartAfterFailure(st.log))
  {
    hide Exec, NoStartAfterFailure, HasFailure;
    InitialInv(f);
    ExecInv(f, Initial(f), actions);
    var st := Exec(f, Initial(f), actions).value;
    RunningAreHolders(st.phases);
    forall i | 0 <= i < |f.children|
      ensures st.writes[i] <= 1 && (st.results[i].Some? ==> st.results[i].value.nodeID == f.children[i])
      ensures st.late[i] ==> Started(i) !in st.log
    {
      assert Member(f, st, i);
    }
  }

  predicate AllDone(st: State) {
    forall i :: 0 <= i < |st.phases| ==> st.phases[i].Done?
  }

  lemma {:induction false} NoHolder(phases: seq<Phase>)
    requires forall i :: 0 <= i < |phases| ==> !Holds(phases[i])
    ensures Holders(phases) == 0
  {
    if phases != [] {
      NoHolder(phases[1..]);
    }
  }

  /** The fan-out never deadlocks: short of the end, a goroutine can take a step
      (for one inside its child, that the child returns). */
  lemma SomeoneMoves(f: FanOut, st: State) returns (a: Action)
    requires Inv(f, st) && !AllDone(st)
    ensures !a.ParentCancel? && Enabled(f, st, a)
  {
    hide Member, FailureSeen, QuietAfterFailure, NoStartAfterFailure;
    if i :| 0 <= i < |st.phases| && Holds(st.phases[i]) {
      match st.phases[i] {
        case Holding => a := Check(i);
        case Cleared => a := Start(i);
        case Executing => a := Return(i, CANCELLED, false);
        case Reported(_) => a := React(i);
        case Leaving => a := Release(i);
      }
    } else {
      NoHolder(st.phases);
      var i :| 0 <= i < |st.phases| && !st.phases[i].Done?;
      a := Acquire(i);
    }
  }

  /** Every run is over after at most 6n + 1 steps, and one that can go no further
      has all results, each written exactly once, in the children's order, and an
      empty semaphore: that is what the join sees. */
  lemma JoinSeesEverything(f: FanOut, actions: seq<Action>)
    requires Exec(f, Initial(f), actions).Some?
    ensures var st := Exec(f, Initial(f), actions).value;
            && Shaped(f, st)
            && |actions| <= 6 * |f.children| + 1
            && (AllDone(st) ==>
                  && st.slots == 0
                  && forall i :: 0 <= i < |f.children| ==>
                       st.writes[i] == 1 && st.results[i].Some? && st.results[i].value.nodeID == f.children[i])
            && (!AllDone(st) ==> exists a: Action :: !a.ParentCancel? && Enabled(f, st, a))
  {
    hide Exec, NoStartAfterFailure, HasFailure, Enabled;
    InitialInv(f);
    NobodyHolds(|f.children|);
    ExecInv(f, Initial(f), actions);
    var st := Exec(f, Initial(f), actions).value;
    if AllDone(st) {
      NoHolder(st.phases);
      forall i | 0 <= i < |f.children|
        ensures st.writes[i] == 1 && st.results[i].Some? && st.results[i].value.nodeID == f.children[i]
      {
        assert Member(f, st, i);
      }
    } else {
      var a := SomeoneMoves(f, st);
    }
  }
}
