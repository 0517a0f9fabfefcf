/** The verdicts over branches, stated on the branches one by one. */
module JoinMeaning {
  import opened Text
  import opened Runtime
  import opened Parallel
  import opened Join

  /** A branch counts for the fan-out when it has no error and ended well. */
  predicate Succeeded(outcomes: Outcomes, errors: set<string>, id: string) {
    && id in outcomes && id !in errors
    && (outcomes[id].status == Success || outcomes[id].status == PartialSuccess)
  }

  function Winners(outcomes: Outcomes, errors: set<string>): set<string> {
    set id | id in outcomes && Succeeded(outcomes, errors, id)
  }

  lemma WinnersAreGood(outcomes: Outcomes, errors: set<string>)
    ensures Winners(outcomes, errors) == Good(outcomes, errors)
  {
  }

  /** Each policy, for all outcomes and errors: all succeeded, some did, at least k
      did, more than half did; any other text accepts everything. */
  lemma PoliciesMean(outcomes: Outcomes, errors: set<string>, policy: JoinPolicy, k: int)
    ensures JoinStatus(outcomes, errors, policy, k) in {Success, Fail}
    ensures JoinStatus(outcomes, errors, WaitAll, k) == Success <==>
              forall id :: id in outcomes ==> Succeeded(outcomes, errors, id)
    ensures JoinStatus(outcomes, errors, FirstSuccess, k) == Success <==>
              exists id :: id in outcomes && Succeeded(outcomes, errors, id)
    ensures JoinStatus(outcomes, errors, KOfN, k) == Success <==> |Winners(outcomes, errors)| >= k
    ensures JoinStatus(outcomes, errors, Quorum, k) == Success <==> 2 * |Winners(outcomes, errors)| > |outcomes|
    ensures JoinStatus(outcomes, errors, Unknown, k) == Success
  {
    WinnersAreGood(outcomes, errors);
    GoodAndBad(outcomes, errors);
    NoneBad(outcomes, errors);
    SomeGood(outcomes, errors);
    hide Good, Bad, Succeeded;
  }

  lemma NoneBad(outcomes: Outcomes, errors: set<string>)
    ensures |Bad(outcomes, errors)| == 0 <==> forall id :: id in outcomes ==> Succeeded(outcomes, errors, id)
  {
    var bad := Bad(outcomes, errors);
    if |bad| == 0 {
      assert bad == {};
      assert forall id :: id in outcomes ==> id in outcomes.Keys && id !in bad;
    }
    if forall id :: id in outcomes ==> Succeeded(outcomes, errors, id) {
      assert bad == {};
    }
  }

  lemma SomeGood(outcomes: Outcomes, errors: set<string>)
    ensures |Good(outcomes, errors)| > 0 <==> exists id :: id in outcomes && Succeeded(outcomes, errors, id)
  {
    var good := Good(outcomes, errors);
    if id :| id in outcomes && Succeeded(outcomes, errors, id) {
      assert id in good;
    }
    if |good| > 0 {
      var id :| id in good;
    }
  }

  /** With error_policy=ignore failures do not weigh: without a success the fan-out
      fails; with one, only k_of_n can still fail it. */
  lemma IgnoreMeans(results: seq<BranchResult>, policy: JoinPolicy, k: int)
    ensures var outcomes, errors := OutcomesOf(results), ErrorsOf(results);
            var good, status := Winners(outcomes, errors), FinishStatus(results, Ignore, policy, k);
            status == if good != {} && (policy == KOfN ==> |good| >= k) then Success else Fail
  {
    var outcomes, errors := OutcomesOf(results), ErrorsOf(results);
    WinnersAreGood(outcomes, errors);
    var good, kept := Good(outcomes, errors), Kept(outcomes, errors);
    assert kept.Keys == good;
    PoliciesMean(kept, {}, policy, k);
    assert Winners(kept, {}) == good;
    assert |kept| == |kept.Keys|;
    if good != {} {
      var id :| id in good;
      assert kept != map[] && Succeeded(kept, {}, id);
    }
  }

  /** With any other error policy the join policy decides over all branches. */
  lemma OthersMean(results: seq<BranchResult>, errPolicy: ErrorPolicy, policy: JoinPolicy, k: int)
    requires errPolicy != Ignore
    ensures FinishStatus(results, errPolicy, policy, k) == JoinStatus(OutcomesOf(results), ErrorsOf(results), policy, k)
  {
  }

  /** Of several results for one child the last one stands; one error is enough. */
  lemma {:induction false} LastResultStands(results: seq<BranchResult>, i: nat)
    requires i < |results| && forall j :: i < j < |results| ==> results[j].nodeID != results[i].nodeID
    ensures results[i].nodeID in OutcomesOf(results) && OutcomesOf(results)[results[i].nodeID] == results[i].outcome
  {
    var n := |results| - 1;
    if i < n {
      LastResultStands(results[..n], i);
    }
  }

  lemma ErrorsMean(results: seq<BranchResult>, id: string)
    ensures id in ErrorsOf(results) <==> exists i :: 0 <= i < |results| && results[i].failed && results[i].nodeID == id
  {
    if id in ErrorsOf(results) {
      var r :| r in results && r.failed && r.nodeID == id;
    }
  }

  // ---- the best branch ----

  lemma {:induction false} LessByFirstDifference(p: string, c: char, d: char, x: string, y: string)
    requires c < d
    ensures Less(p + [c] + x, p + [d] + y)
  {
    if p == "" {
      assert p + [c] + x == [c] + x && p + [d] + y == [d] + y;
    } else {
      LessByFirstDifference(p[1..], c, d, x, y);
      assert (p + [c] + x)[1..] == p[1..] + [c] + x && (p + [d] + y)[1..] == p[1..] + [d] + y;
    }
  }

  lemma {:induction false} PrefixIsLess(p: string, c: char, x: string)
    ensures Less(p, p + [c] + x)
  {
    if p != "" {
      PrefixIsLess(p[1..], c, x);
      assert (p + [c] + x)[1..] == p[1..] + [c] + x;
    }
  }

  predicate Reported(results: Outcomes, s: Status) {
    exists id :: id in results && results[id].status == s
  }

  predicate NoneGood(results: Outcomes) {
    !Reported(results, Success) && !Reported(results, PartialSuccess)
  }

  /** The best branch has SUCCESS if any has, else PARTIAL_SUCCESS, else RETRY, else
      FAIL; of the branches with its status it has the least ID. */
  lemma BestMeans(results: Outcomes, best: string)
    requires Best(results, best)
    ensures var s := results[best].status;
            && (Reported(results, Success) ==> s == Success)
            && (!Reported(results, Success) && Reported(results, PartialSuccess) ==> s == PartialSuccess)
            && (NoneGood(results) && Reported(results, Retry) ==> s == Retry)
            && (NoneGood(results) && !Reported(results, Retry) && Reported(results, Fail) ==> s == Fail)
            && forall id :: id in results && id != best && results[id].status == s ==> Less(best, id)
  {
    forall id | id in results ensures Priority(results[best].status) <= Priority(results[id].status) {
      if id != best {
        assert Ahead(Ranked(best, results[best]), Ranked(id, results[id]));
      }
    }
  }

  /** The fan-in fails exactly when there are results and none ended well. */
  lemma FanInMeans(results: Outcomes)
    ensures FanInStatus(results) in {Success, Fail}
    ensures FanInStatus(results) == Fail <==> results != map[] && NoneGood(results)
  {
  }
}
