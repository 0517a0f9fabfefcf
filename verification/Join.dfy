/** internal/attractor/handler/parallel.go from the join on, and fan_in.go: the
    verdicts over the branches of a fan-out. Go walks the maps in any order. */
module Join {
  import opened Text
  import opened Runtime
  import opened Parallel

  /** The join attribute; Unknown is every text other than the four. */
  datatype JoinPolicy = WaitAll | KOfN | FirstSuccess | Quorum | Unknown

  datatype ErrorPolicy = Continue | FailFast | Ignore | Other

  type Outcomes = map<string, Outcome>

  // ---- the branches that succeeded and failed ----

  /** Successes by ID: a good status and no error. */
  function Good(outcomes: Outcomes, errors: set<string>): set<string> {
    set id | id in outcomes && id !in errors && outcomes[id].status.IsSuccess()
  }

  function Bad(outcomes: Outcomes, errors: set<string>): set<string> {
    outcomes.Keys - Good(outcomes, errors)
  }

  function JoinStatus(outcomes: Outcomes, errors: set<string>, policy: JoinPolicy, k: int): Status {
    var good, bad, total := |Good(outcomes, errors)|, |Bad(outcomes, errors)|, |outcomes|;
    match policy
    case WaitAll => if bad == 0 then Success else Fail
    case FirstSuccess => if good > 0 then Success else Fail
    case KOfN => if good >= k then Success else Fail
    case Quorum => if good > total / 2 then Success else Fail
    case Unknown => Success
  }

  /** The counting loop, whatever the order of the walk. */
  method CountBranches(outcomes: Outcomes, errors: set<string>) returns (successCount: nat, failCount: nat)
    ensures successCount == |Good(outcomes, errors)| && failCount == |Bad(outcomes, errors)|
  {
    successCount, failCount := 0, 0;
    ghost var good, bad := Good(outcomes, errors), Bad(outcomes, errors);
    var todo := outcomes.Keys;
    assert good * todo == good && bad * todo == bad;
    while todo != {}
      invariant todo <= outcomes.Keys
      invariant successCount + |good * todo| == |good| && failCount + |bad * todo| == |bad|
      decreases todo
    {
      var id :| id in todo;
      RemoveOne(good, todo, id);
      RemoveOne(bad, todo, id);
      todo := todo - {id};
      if id in errors {
        failCount := failCount + 1;
      } else if outcomes[id].status.IsSuccess() {
        successCount := successCount + 1;
      } else {
        failCount := failCount + 1;
      }
    }
    assert good * todo == {} && bad * todo == {};
  }

  lemma RemoveOne(s: set<string>, todo: set<string>, id: string)
    requires id in todo
    ensures |s * todo| == |s * (todo - {id})| + One(id in s)
  {
    if id in s {
      assert s * todo == s * (todo - {id}) + {id};
    } else {
      assert s * todo == s * (todo - {id});
    }
  }

  method JoinParallelResults(outcomes: Outcomes, errors: set<string>, policy: JoinPolicy, k: int)
    returns (status: Status)
    ensures status == JoinStatus(outcomes, errors, policy, k)
  {
    var successCount, failCount := CountBranches(outcomes, errors);
    var total := |outcomes|;
    match policy {
      case WaitAll => return if failCount == 0 then Success else Fail;
      case FirstSuccess => return if successCount > 0 then Success else Fail;
      case KOfN => return if successCount >= k then Success else Fail;
      case Quorum => return if successCount > total / 2 then Success else Fail;
      case Unknown => return Success;
    }
  }

  // ---- what Execute does with the results ----

  function OutcomesOf(results: seq<BranchResult>): Outcomes {
    if results == [] then map[]
    else
      var r := results[|results| - 1];
      OutcomesOf(results[..|results| - 1])[r.nodeID := r.outcome]
  }

  function ErrorsOf(results: seq<BranchResult>): set<string> {
    set r | r in results && r.failed :: r.nodeID
  }

  /** What error_policy=ignore leaves for the join. */
  function Kept(outcomes: Outcomes, errors: set<string>): Outcomes {
    map id | id in Good(outcomes, errors) :: outcomes[id]
  }

  function FinishStatus(results: seq<BranchResult>, errPolicy: ErrorPolicy, policy: JoinPolicy, k: int): Status {
    var outcomes, errors := OutcomesOf(results), ErrorsOf(results);
    if errPolicy != Ignore then JoinStatus(outcomes, errors, policy, k)
    else if Kept(outcomes, errors) == map[] then Fail
    else JoinStatus(Kept(outcomes, errors), {}, policy, k)
  }

  /** The tail of Execute after wg.Wait: `stored` goes into the context. */
  method Finish(results: seq<BranchResult>, errPolicy: ErrorPolicy, policy: JoinPolicy, k: int)
    returns (stored: Outcomes, status: Status)
    ensures stored == OutcomesOf(results)
    ensures status == FinishStatus(results, errPolicy, policy, k)
  {
    var outcomes: Outcomes := map[];
    var errs: set<string> := {};
    for i := 0 to |results|
      invariant outcomes == OutcomesOf(results[..i]) && errs == ErrorsOf(results[..i])
    {
      assert results[..i + 1] == results[..i] + [results[i]];
      outcomes := outcomes[results[i].nodeID := results[i].outcome];
      if results[i].failed {
        errs := errs + {results[i].nodeID};
      }
    }
    assert results[..|results|] == results;
    stored := outcomes;
    if errPolicy == Ignore {
      outcomes := FilterFailures(outcomes, errs);
      errs := errs * outcomes.Keys;
      assert errs == {};
      if |outcomes| == 0 {
        return stored, Fail;
      }
    }
    status := JoinParallelResults(outcomes, errs, policy, k);
  }

  method FilterFailures(outcomes: Outcomes, errs: set<string>) returns (kept: Outcomes)
    ensures kept == Kept(outcomes, errs)
  {
    kept := outcomes;
    var todo := outcomes.Keys;
    while todo != {}
      invariant todo <= outcomes.Keys
      invariant kept == map id | id in outcomes && (id in todo || id in Good(outcomes, errs)) :: outcomes[id]
      decreases todo
    {
      var id :| id in todo;
      todo := todo - {id};
      if !outcomes[id].status.IsSuccess() || id in errs {
        kept := kept - {id};
      }
    }
  }

  // ---- fan-in ----

  function Priority(s: Status): nat {
    match s
    case Success => 0
    case PartialSuccess => 1
    case Retry => 2
    case Fail => 3
    case Other(_) => 4
  }

  datatype Ranked = Ranked(id: string, outcome: Outcome)

  predicate Ahead(a: Ranked, b: Ranked) {
    var pa, pb := Priority(a.outcome.status), Priority(b.outcome.status);
    pa < pb || (pa == pb && Less(a.id, b.id))
  }

  lemma AheadTotal(a: Ranked, b: Ranked)
    ensures Ahead(a, b) || Ahead(b, a) || a.id == b.id
    ensures !(Ahead(a, b) && Ahead(b, a))
  {
    LessTotal(a.id, b.id);
  }

  lemma AheadTransitive(a: Ranked, b: Ranked, c: Ranked)
    requires !Ahead(b, a) && !Ahead(c, b)
    ensures !Ahead(c, a)
  {
    LessTotal(a.id, b.id);
    LessTotal(b.id, c.id);
    LessTotal(a.id, c.id);
    if Less(a.id, b.id) && Less(b.id, c.id) { LessTransitive(a.id, b.id, c.id); }
  }

  predicate SortedRanks(s: seq<Ranked>) {
    forall i, j :: 0 <= i < j < |s| ==> !Ahead(s[j], s[i])
  }

  function InsertRank(r: Ranked, s: seq<Ranked>): (out: seq<Ranked>)
    requires SortedRanks(s)
    ensures SortedRanks(out)
    ensures forall x :: x in out <==> x == r || x in s
  {
    if s == [] then [r]
    else if Ahead(r, s[0]) then
      assert forall i :: 0 <= i < |s| ==> !Ahead(s[i], r) by {
        forall i | 0 <= i < |s| ensures !Ahead(s[i], r) {
          AheadTotal(r, s[0]);
          if i > 0 { AheadTransitive(r, s[0], s[i]); }
        }
      }
      [r] + s
    else
      var tail := InsertRank(r, s[1..]);
      assert s == [s[0]] + s[1..];
      assert forall x :: x in tail ==> !Ahead(x, s[0]);
      [s[0]] + tail
  }

  /** sort.Slice by status priority, then by ID. */
  function SortRanks(s: seq<Ranked>): (out: seq<Ranked>)
    ensures SortedRanks(out)
    ensures forall x :: x in out <==> x in s
  {
    if s == [] then []
    else
      assert s == [s[0]] + s[1..];
      InsertRank(s[0], SortRanks(s[1..]))
  }

  /** `id` is the least branch by (status priority, ID). */
  predicate Best(results: Outcomes, id: string) {
    id in results &&
    forall other :: other in results && other != id ==> Ahead(Ranked(id, results[id]), Ranked(other, results[other]))
  }

  function FanInStatus(results: Outcomes): Status {
    if results == map[] || exists id :: id in results && results[id].status.IsSuccess() then Success else Fail
  }

  /** FanInHandler.Execute over the stored results: its status, and the best branch
      it writes to the context. */
  method FanIn(results: Outcomes) returns (status: Status, best: Option<string>)
    ensures status == FanInStatus(results)
    ensures results == map[] ==> best == None
    ensures results != map[] ==> best.Some? && Best(results, best.value)
  {
    if |results| == 0 {
      return Success, None;
    }
    var ranked: seq<Ranked> := [];
    var todo := results.Keys;
    while todo != {}
      invariant todo <= results.Keys
      invariant forall r :: r in ranked <==> r.id in results && r.id !in todo && r.outcome == results[r.id]
      decreases todo
    {
      var id :| id in todo;
      todo := todo - {id};
      ranked := ranked + [Ranked(id, results[id])];
    }
    var sorted := SortRanks(ranked);
    assert sorted != [] by {
      var id :| id in results;
      assert Ranked(id, results[id]) in sorted;
    }
    FirstRankIsBest(results, ranked, sorted);
    best := Some(sorted[0].id);
    for i := 0 to |sorted|
      invariant forall j :: 0 <= j < i ==> !sorted[j].outcome.status.IsSuccess()
    {
      if sorted[i].outcome.status.IsSuccess() {
        assert sorted[i] in sorted;
        return Success, best;
      }
    }
    assert forall id :: id in results ==> Ranked(id, results[id]) in sorted;
    return Fail, best;
  }

  lemma FirstRankIsBest(results: Outcomes, ranked: seq<Ranked>, sorted: seq<Ranked>)
    requires forall r :: r in ranked <==> r.id in results && r.outcome == results[r.id]
    requires forall r :: r in sorted <==> r in ranked
    requires sorted != [] && SortedRanks(sorted)
    ensures Best(results, sorted[0].id)
  {
    var first := sorted[0];
    assert first in sorted;
    forall other | other in results && other != first.id ensures Ahead(first, Ranked(other, results[other])) {
      var r := Ranked(other, results[other]);
      assert r in sorted;
      AheadTotal(first, r);
    }
  }

  // ---- the verdicts agree ----

  lemma GoodAndBad(outcomes: Outcomes, errors: set<string>)
    ensures |Good(outcomes, errors)| + |Bad(outcomes, errors)| == |outcomes|
  {
    assert outcomes.Keys == Good(outcomes, errors) + Bad(outcomes, errors);
  }

  /** On any branches: quorum is more than half; with at least one branch, wait_all
      success implies quorum success, which implies first_success. */
  lemma PoliciesAreNested(outcomes: Outcomes, errors: set<string>, k: int)
    ensures JoinStatus(outcomes, errors, Quorum, k) == Success <==> 2 * |Good(outcomes, errors)| > |outcomes|
    ensures outcomes != map[] && JoinStatus(outcomes, errors, WaitAll, k) == Success ==>
              JoinStatus(outcomes, errors, Quorum, k) == Success
    ensures JoinStatus(outcomes, errors, Quorum, k) == Success ==>
              JoinStatus(outcomes, errors, FirstSuccess, k) == Success
  {
    GoodAndBad(outcomes, errors);
    if outcomes != map[] {
      assert |outcomes.Keys| > 0;
    }
  }

  lemma SomeGoodBranch(outcomes: Outcomes, errors: set<string>, policy: JoinPolicy, k: int)
    requires outcomes != map[] && policy in {WaitAll, Quorum, FirstSuccess}
    requires JoinStatus(outcomes, errors, policy, k) == Success
    ensures exists id :: id in outcomes && outcomes[id].status.IsSuccess()
  {
    PoliciesAreNested(outcomes, errors, k);
    assert |Good(outcomes, errors)| > 0;
    var id :| id in Good(outcomes, errors);
  }

  lemma OutcomesNonEmpty(results: seq<BranchResult>)
    requires results != []
    ensures OutcomesOf(results) != map[]
  {
    assert results[|results| - 1].nodeID in OutcomesOf(results);
  }

  lemma KeptAreOutcomes(outcomes: Outcomes, errors: set<string>, id: string)
    requires id in Kept(outcomes, errors)
    ensures id in outcomes && Kept(outcomes, errors)[id] == outcomes[id]
  {
  }

  lemma {:induction false} FinishHasGood(results: seq<BranchResult>, errPolicy: ErrorPolicy, policy: JoinPolicy, k: int)
    returns (id: string)
    requires results != [] && policy in {WaitAll, Quorum, FirstSuccess}
    requires FinishStatus(results, errPolicy, policy, k) == Success
    ensures id in OutcomesOf(results) && OutcomesOf(results)[id].status.IsSuccess()
  {
    hide Kept, JoinStatus, ErrorsOf;
    var outcomes, errors := OutcomesOf(results), ErrorsOf(results);
    OutcomesNonEmpty(results);
    hide OutcomesOf;
    if errPolicy == Ignore {
      var kept := Kept(outcomes, errors);
      SomeGoodBranch(kept, {}, policy, k);
      id :| id in kept && kept[id].status.IsSuccess();
      KeptAreOutcomes(outcomes, errors, id);
    } else {
      SomeGoodBranch(outcomes, errors, policy, k);
      id :| id in outcomes && outcomes[id].status.IsSuccess();
    }
  }

  /** The fan-in agrees: when a fan-out with children succeeds under wait_all,
      quorum or first_success, with any error policy, the fan-in over the stored
      results succeeds and the best branch has a successful status. */
  lemma {:induction false} FanInAgrees(results: seq<BranchResult>, errPolicy: ErrorPolicy,
    policy: JoinPolicy, k: int, best: string)
    requires results != [] && policy in {WaitAll, Quorum, FirstSuccess}
    requires FinishStatus(results, errPolicy, policy, k) == Success
    requires Best(OutcomesOf(results), best)
    ensures FanInStatus(OutcomesOf(results)) == Success
    ensures OutcomesOf(results)[best].status.IsSuccess()
  {
    hide FinishStatus, OutcomesOf, Less;
    var id := FinishHasGood(results, errPolicy, policy, k);
    var outcomes := OutcomesOf(results);
    if id != best {
      assert Ahead(Ranked(best, outcomes[best]), Ranked(id, outcomes[id]));
    }
  }

  lemma BestIsUnique(results: Outcomes, a: string, b: string)
    requires Best(results, a) && Best(results, b)
    ensures a == b
  {
    if a != b {
      AheadTotal(Ranked(a, results[a]), Ranked(b, results[b]));
    }
  }
}
