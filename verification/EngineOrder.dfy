/** The results of parallel children are taken in the order in which a map is walked.
    What this order decides, and what it does not. */
module EngineOrder {
  import opened Text
  import opened Model
  import opened Runtime
  import opened EngineSpec
  import opened EngineLeaving

  predicate DistinctChildren(results: seq<ChildResult>) {
    forall i, j :: 0 <= i < j < |results| ==> results[i].id != results[j].id
  }

  /** Two walks over the same map. */
  ghost predicate SameResults(a: seq<ChildResult>, b: seq<ChildResult>) {
    && DistinctChildren(a) && DistinctChildren(b)
    && forall r :: r in a <==> r in b
  }

  // ---- completed nodes ----

  lemma {:induction false} AbsorbCompletes(st: State, results: seq<ChildResult>)
    ensures forall id :: id in Absorb(st, results).completed <==>
              id in st.completed || exists r :: r in results && r.id == id
    decreases |results|
  {
    if results != [] {
      var c := results[0];
      AbsorbCompletes(Taken(st, c), results[1..]);
      assert results == [c] + results[1..];
    }
  }

  // ---- last visits ----

  /** The last status of `id` in the log, if it was visited. */
  function Last(log: seq<VisitEntry>, id: string): Option<Status> {
    if id in LatestStatus(log) then Some(LatestStatus(log)[id]) else None
  }

  lemma LastOfLonger(log: seq<VisitEntry>, e: VisitEntry, id: string)
    ensures Last(log + [e], id) == if e.nodeID == id then Some(e.status) else Last(log, id)
  {
    assert (log + [e])[..|log|] == log;
  }

  /** A child's result is its last visit, whatever order it came in. */
  lemma {:induction false} ResultIsLast(log: seq<VisitEntry>, results: seq<ChildResult>, r: ChildResult)
    requires DistinctChildren(results) && r in results
    ensures Last(log + EntriesOf(results), r.id) == Some(r.outcome.status)
    decreases |results|
  {
    hide Last;
    var n := |results| - 1;
    var e := VisitEntry(results[n].id, results[n].outcome.status, 1);
    assert log + EntriesOf(results) == log + EntriesOf(results[..n]) + [e];
    LastOfLonger(log + EntriesOf(results[..n]), e, r.id);
    if r != results[n] {
      assert r in results[..n];
      ResultIsLast(log, results[..n], r);
    }
  }

  lemma {:induction false} NoResultKeepsLast(log: seq<VisitEntry>, results: seq<ChildResult>, id: string)
    requires forall r :: r in results ==> r.id != id
    ensures Last(log + EntriesOf(results), id) == Last(log, id)
    decreases |results|
  {
    hide Last;
    if results == [] {
      assert log + [] == log;
    } else {
      var n := |results| - 1;
      var e := VisitEntry(results[n].id, results[n].outcome.status, 1);
      assert log + EntriesOf(results) == log + EntriesOf(results[..n]) + [e];
      LastOfLonger(log + EntriesOf(results[..n]), e, id);
      NoResultKeepsLast(log, results[..n], id);
    }
  }

  lemma SameLast(log: seq<VisitEntry>, a: seq<ChildResult>, b: seq<ChildResult>, id: string)
    requires SameResults(a, b)
    ensures Last(log + EntriesOf(a), id) == Last(log + EntriesOf(b), id)
  {
    hide Last;
    if r :| r in a && r.id == id {
      ResultIsLast(log, a, r);
      ResultIsLast(log, b, r);
    } else {
      NoResultKeepsLast(log, a, id);
      NoResultKeepsLast(log, b, id);
    }
  }

  // ---- the context ----

  /** The children that set `key` all set it to the same. */
  predicate Agree(results: seq<ChildResult>, key: string) {
    forall r, s :: r in results && s in results ==>
      key in r.outcome.contextUpdates && key in s.outcome.contextUpdates ==>
        r.outcome.contextUpdates[key] == s.outcome.contextUpdates[key]
  }

  lemma {:induction false} AbsorbSets(st: State, results: seq<ChildResult>, key: string)
    ensures var c := Absorb(st, results).context;
            && (key in c <==> key in st.context || exists r :: r in results && key in r.outcome.contextUpdates)
            && (key in c ==>
                  || (exists r :: r in results && key in r.outcome.contextUpdates &&
                        r.outcome.contextUpdates[key] == c[key])
                  || ((forall r :: r in results ==> key !in r.outcome.contextUpdates) && c[key] == st.context[key]))
    decreases |results|
  {
    if results != [] {
      AbsorbSets(Taken(st, results[0]), results[1..], key);
      assert results == [results[0]] + results[1..];
    }
  }

  /** The order of the results decides neither the completed set nor any node's last
      visit, so not the verdict of the gates; of the context it decides at most the
      keys that two children set differently. */
  lemma OrderDecidesLittle(g: Graph, st: State, a: seq<ChildResult>, b: seq<ChildResult>)
    requires SameResults(a, b)
    ensures var x, y := Absorb(st, a), Absorb(st, b);
            && x.completed == y.completed && x.logs == y.logs && x.retries == y.retries && x.current == y.current
            && LatestStatus(x.visitLog) == LatestStatus(y.visitLog)
            && CheckGoalGates(g, x.visitLog) == CheckGoalGates(g, y.visitLog)
            && x.context.Keys == y.context.Keys
            && (forall key :: key in x.context && Agree(a, key) ==> x.context[key] == y.context[key])
  {
    var x, y := Absorb(st, a), Absorb(st, b);
    AbsorbCompletes(st, a);
    AbsorbCompletes(st, b);
    AbsorbKeepsRest(st, a);
    AbsorbKeepsRest(st, b);
    AbsorbLogs(st, a);
    AbsorbLogs(st, b);
    hide Absorb, EntriesOf, LatestStatus;
    forall id ensures Last(x.visitLog, id) == Last(y.visitLog, id) {
      SameLast(st.visitLog, a, b, id);
    }
    SameStatus(x.visitLog, y.visitLog);
    forall key
      ensures key in x.context <==> key in y.context
      ensures key in x.context && Agree(a, key) ==> x.context[key] == y.context[key]
    {
      AbsorbSets(st, a, key);
      AbsorbSets(st, b, key);
    }
  }

  lemma SameStatus(a: seq<VisitEntry>, b: seq<VisitEntry>)
    requires forall id :: Last(a, id) == Last(b, id)
    ensures LatestStatus(a) == LatestStatus(b)
  {
    hide LatestStatus;
    forall id ensures id in LatestStatus(a) <==> id in LatestStatus(b)
      ensures id in LatestStatus(a) ==> LatestStatus(a)[id] == LatestStatus(b)[id]
    {
      assert Last(a, id) == Last(b, id);
    }
  }

  lemma {:induction false} AbsorbKeepsRest(st: State, results: seq<ChildResult>)
    ensures var x := Absorb(st, results);
            x.logs == st.logs && x.retries == st.retries && x.current == st.current && x.saved == st.saved
    decreases |results|
  {
    if results != [] {
      AbsorbKeepsRest(Taken(st, results[0]), results[1..]);
    }
  }

  /** Such a key it does decide: of two children the later one wins. */
  lemma OrderDecidesDisputes(st: State, r: ChildResult, s: ChildResult, key: string)
    requires r.id != s.id && !Agree([r, s], key)
    ensures SameResults([r, s], [s, r])
    ensures var x, y := Absorb(st, [r, s]).context, Absorb(st, [s, r]).context;
            key in x && key in y && x[key] != y[key]
  {
    hide Absorb;
    Disputed(r, s, key);
    AbsorbTwo(st, r, s);
    AbsorbTwo(st, s, r);
  }

  lemma Disputed(r: ChildResult, s: ChildResult, key: string)
    requires !Agree([r, s], key)
    ensures key in r.outcome.contextUpdates && key in s.outcome.contextUpdates
    ensures r.outcome.contextUpdates[key] != s.outcome.contextUpdates[key]
  {
  }

  lemma AbsorbTwo(st: State, r: ChildResult, s: ChildResult)
    ensures Absorb(st, [r, s]) == Taken(Taken(st, r), s)
  {
    assert [r, s][1..] == [s] && [s][1..] == [];
    assert Absorb(Taken(Taken(st, r), s), []) == Taken(Taken(st, r), s);
    assert Absorb(Taken(st, r), [s]) == Taken(Taken(st, r), s);
  }
}
