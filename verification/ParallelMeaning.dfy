/** What the results of a fan-out tell, and what cancels it, over all interleavings. */
module ParallelMeaning {
  import opened Runtime
  import opened Parallel

  /** The child of goroutine i returned this. */
  predicate ChildReturned(actions: seq<Action>, i: nat, r: BranchResult) {
    Return(i, r.outcome, r.failed) in actions
  }

  predicate NotRun(st: State, i: nat, r: BranchResult) {
    r.failed && r.outcome.status == Fail && st.cancelled && Started(i) !in st.log
  }

  /** A result is what the child returned, or, for a child that was never started
      because of the cancel, a failure. */
  predicate ResultTold(f: FanOut, st: State, actions: seq<Action>, i: nat)
    requires Shaped(f, st) && i < |f.children|
  {
    st.results[i].Some? ==>
      var r := st.results[i].value;
      ChildReturned(actions, i, r) || NotRun(st, i, r)
  }

  predicate BadReturn(a: Action) {
    a.Return? && (a.failed || (a.outcome.status != Success && a.outcome.status != PartialSuccess))
  }

  /** Only the parent, or a failing child under fail_fast, cancels. */
  predicate CancelTold(f: FanOut, st: State, actions: seq<Action>) {
    && (st.cancelled ==> ParentCancel in actions || (f.failFast && exists a :: a in actions && BadReturn(a)))
    && forall i :: 0 <= i < |st.phases| && st.phases[i] == Reported(true) ==> exists a :: a in actions && BadReturn(a)
  }

  lemma StepResult(f: FanOut, st: State, a: Action, done: seq<Action>, i: nat)
    requires Inv(f, st) && Enabled(f, st, a) && i < |f.children| && ResultTold(f, st, done, i)
    ensures Shaped(f, Next(f, st, a)) && ResultTold(f, Next(f, st, a), done + [a], i)
  {
    hide FailureSeen, QuietAfterFailure, NoStartAfterFailure;
    assert Member(f, st, i);
    assert forall x :: x in done ==> x in done + [a];
    assert a in done + [a];
  }

  lemma StepCancel(f: FanOut, st: State, a: Action, done: seq<Action>)
    requires Shaped(f, st) && Enabled(f, st, a) && CancelTold(f, st, done)
    ensures CancelTold(f, Next(f, st, a), done + [a])
  {
    assert forall x :: x in done ==> x in done + [a];
    assert a in done + [a];
    var t := Next(f, st, a);
    forall i | 0 <= i < |t.phases| && t.phases[i] == Reported(true)
      ensures exists x :: x in done + [a] && BadReturn(x) {
      if i < |st.phases| && st.phases[i] == Reported(true) {
      } else {
        assert BadReturn(a);
      }
    }
  }

  lemma {:induction false} ExecTold(f: FanOut, st: State, done: seq<Action>, actions: seq<Action>)
    requires Inv(f, st) && Exec(f, st, actions).Some?
    requires CancelTold(f, st, done) && forall i :: 0 <= i < |f.children| ==> ResultTold(f, st, done, i)
    ensures var t := Exec(f, st, actions).value;
            && Shaped(f, t) && CancelTold(f, t, done + actions)
            && forall i :: 0 <= i < |f.children| ==> ResultTold(f, t, done + actions, i)
    decreases |actions|
  {
    hide Inv, Next, Enabled, ResultTold, CancelTold;
    InvShaped(f, st);
    if actions == [] {
      assert done + [] == done;
    } else {
      var a := actions[0];
      StepInv(f, st, a);
      StepCancel(f, st, a, done);
      forall i | 0 <= i < |f.children|
        ensures Shaped(f, Next(f, st, a)) && ResultTold(f, Next(f, st, a), done + [a], i) {
        StepResult(f, st, a, done, i);
      }
      InvShaped(f, Next(f, st, a));
      ExecTold(f, Next(f, st, a), done + [a], actions[1..]);
      assert done + [a] + actions[1..] == done + actions;
    }
  }

  /** In every interleaving: a slot of the results holds what its own child returned,
      or the failure of a child that was cancelled before it started; nothing but
      the parent, or a failing child under fail_fast, cancels; and at most
      max_parallel children run, one if max_parallel is less than one. */
  lemma ResultsAreTold(f: FanOut, actions: seq<Action>)
    requires Exec(f, Initial(f), actions).Some?
    ensures var st := Exec(f, Initial(f), actions).value;
            && Shaped(f, st) && CancelTold(f, st, actions)
            && (forall i :: 0 <= i < |f.children| ==> ResultTold(f, st, actions, i))
            && (f.maxParallel >= 1 ==> Running(st.phases) <= f.maxParallel)
            && (f.maxParallel < 1 ==> Running(st.phases) <= 1)
  {
    hide Exec, Inv, ResultTold, CancelTold;
    InitialInv(f);
    NothingTold(f);
    EveryInterleaving(f, actions);
    ExecTold(f, Initial(f), [], actions);
    assert [] + actions == actions;
  }

  lemma NothingTold(f: FanOut)
    ensures CancelTold(f, Initial(f), []) && forall i :: 0 <= i < |f.children| ==> ResultTold(f, Initial(f), [], i)
  {
  }
}
