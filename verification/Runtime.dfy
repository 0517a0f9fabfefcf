/** internal/attractor/runtime: stage outcomes, the shared context, retry
    policies and checkpoints. */
module Runtime {
  import opened Text

  /** StageStatus is a string in Go; Other stands for any string but the four. */
  datatype Status = Success | Fail | Retry | PartialSuccess | Other(name: string) {
    function Text(): string {
      match this
      case Success => "SUCCESS"
      case Fail => "FAIL"
      case Retry => "RETRY"
      case PartialSuccess => "PARTIAL_SUCCESS"
      case Other(name) => name
    }

    predicate IsSuccess() {
      Success? || PartialSuccess?
    }
  }

  datatype Outcome = Outcome(
    status: Status,
    preferredLabel: string,
    suggestedNextIDs: seq<string>,
    contextUpdates: map<string, string>)

  datatype VisitEntry = VisitEntry(nodeID: string, status: Status, attempt: int)

  datatype Checkpoint = Checkpoint(
    currentNode: string,
    completed: set<string>,
    retryCounters: map<string, nat>,
    context: map<string, string>,
    logs: seq<string>,
    visitLog: seq<VisitEntry>)

  /** The key-value store the stages share. Each method is one critical section. */
  class Context {
    var data: map<string, string>
    var logs: seq<string>

    constructor ()
      ensures data == map[] && logs == []
    {
      data, logs := map[], [];
    }

    method Set(key: string, value: string)
      modifies this`data
      ensures data == old(data)[key := value]
    {
      data := data[key := value];
    }

    /** Copies entry by entry, in any order; entries of `other` win. */
    method Merge(other: map<string, string>)
      modifies this`data
      ensures data == old(data) + other
    {
      var todo := other.Keys;
      while todo != {}
        invariant todo <= other.Keys
        invariant data == old(data) + (other - todo)
        decreases todo
      {
        var k :| k in todo;
        data := data[k := other[k]];
        todo := todo - {k};
      }
      assert other - {} == other;
    }

    method AppendLog(entry: string)
      modifies this`logs
      ensures logs == old(logs) + [entry]
    {
      logs := logs + [entry];
    }
  }

  // ---- retry.go ----

  datatype RetryPolicy = RetryPolicy(initialDelayMs: int, backoffFactor: real, maxDelayMs: int, jitter: bool)

  function Power(b: real, n: nat): real {
    if n == 0 then 1.0 else b * Power(b, n - 1)
  }

  /** The exponential delay, cut off at the policy's cap if it has one. */
  function CappedDelay(p: RetryPolicy, attempt: nat): real
    requires attempt >= 1
  {
    var raw := p.initialDelayMs as real * Power(p.backoffFactor, attempt - 1);
    if p.maxDelayMs > 0 && raw > p.maxDelayMs as real then p.maxDelayMs as real else raw
  }

  function Jittered(delay: real, jitter: bool, draw: real): real {
    if jitter then delay * (0.5 + 0.5 * draw) else delay
  }

  /** The delay in milliseconds before attempt `attempt` (1-based). `draw` is the
      random number in [0, 1) that the jitter uses; the conversion to a duration
      drops the fraction. */
  function DelayForAttempt(p: RetryPolicy, attempt: nat, draw: real): (ms: int)
    requires attempt >= 1
  {
    if p.initialDelayMs <= 0 then 0
    else Jittered(CappedDelay(p, attempt), p.jitter, draw).Floor
  }

  /** Either no delay at all, or a growing one with a cap above where it starts. */
  predicate Bounded(p: RetryPolicy) {
    || (p.initialDelayMs == 0 && p.maxDelayMs == 0)
    || (0 < p.initialDelayMs <= p.maxDelayMs && p.backoffFactor >= 1.0)
  }

  function PolicyByName(cs: Charset, name: string): (p: RetryPolicy)
    ensures Bounded(p)
  {
    var n := ToLower(cs, name);
    if n == "none" then RetryPolicy(0, 1.0, 0, false)
    else if n == "aggressive" then RetryPolicy(50, 1.5, 5000, true)
    else if n == "linear" then RetryPolicy(1000, 1.0, 1000, false)
    else if n == "patient" then RetryPolicy(1000, 3.0, 120000, true)
    else RetryPolicy(200, 2.0, 60000, true)
  }

  lemma {:induction false} PowerAtLeastOne(b: real, n: nat)
    requires b >= 1.0
    ensures Power(b, n) >= 1.0
  {
    if n > 0 {
      PowerAtLeastOne(b, n - 1);
      ProductAtLeast(b, Power(b, n - 1));
    }
  }

  lemma ProductAtLeast(x: real, y: real)
    requires x >= 1.0 && y >= 1.0
    ensures x * y >= 1.0
  {
    assert x * y - y == (x - 1.0) * y;
  }

  lemma CappedDelayBounds(p: RetryPolicy, attempt: nat)
    requires Bounded(p) && attempt >= 1
    ensures p.initialDelayMs as real <= CappedDelay(p, attempt) <= p.maxDelayMs as real
  {
    var initial, power := p.initialDelayMs as real, Power(p.backoffFactor, attempt - 1);
    if p.initialDelayMs > 0 {
      PowerAtLeastOne(p.backoffFactor, attempt - 1);
      ProductNonNegative(initial, power - 1.0);
      assert initial * power == initial + initial * (power - 1.0);
    } else {
      assert initial == 0.0 && initial * power == 0.0;
    }
  }

  lemma JitteredBounds(x: real, jitter: bool, draw: real)
    requires x >= 0.0 && 0.0 <= draw < 1.0
    ensures 0.5 * x <= Jittered(x, jitter, draw) <= x
  {
    if jitter {
      var f := 0.5 + 0.5 * draw;
      ProductNonNegative(x, 1.0 - f);
      ProductNonNegative(x, f - 0.5);
      assert x - x * f == x * (1.0 - f);
      assert x * f - 0.5 * x == x * (f - 0.5);
    }
  }

  lemma ProductNonNegative(x: real, y: real)
    requires x >= 0.0 && y >= 0.0
    ensures x * y >= 0.0
  {
  }

  /** A delay lies between half of the initial delay and the cap, whatever the
      attempt and the jitter. */
  lemma DelayBounds(p: RetryPolicy, attempt: nat, draw: real)
    requires Bounded(p) && attempt >= 1 && 0.0 <= draw < 1.0
    ensures p.initialDelayMs / 2 <= DelayForAttempt(p, attempt, draw) <= p.maxDelayMs
  {
    CappedDelayBounds(p, attempt);
    JitteredBounds(CappedDelay(p, attempt), p.jitter, draw);
  }
}
