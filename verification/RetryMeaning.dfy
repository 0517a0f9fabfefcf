/** The waiting times of the retry policies, attempt by attempt. */
module RetryMeaning {
  import opened Text
  import opened Runtime

  function Least(a: real, b: real): real {
    if a < b then a else b
  }

  /** Without jitter the first retry waits the initial delay, and each further one
      the previous delay times the factor, but never more than the cap. */
  lemma DelayGrows(p: RetryPolicy, attempt: nat)
    requires Bounded(p) && p.initialDelayMs > 0 && attempt >= 1
    ensures CappedDelay(p, 1) == p.initialDelayMs as real
    ensures CappedDelay(p, attempt + 1) == Least(CappedDelay(p, attempt) * p.backoffFactor, p.maxDelayMs as real)
  {
    var initial, max, f := p.initialDelayMs as real, p.maxDelayMs as real, p.backoffFactor;
    var raw := initial * Power(f, attempt - 1);
    assert Power(f, 0) == 1.0 && initial * 1.0 == initial;
    Regroup(f, Power(f, attempt - 1), initial);
    assert initial * Power(f, attempt) == raw * f;
    if raw > max {
      Larger(raw, max, f);
    }
  }

  lemma Regroup(f: real, power: real, initial: real)
    ensures initial * (f * power) == (initial * power) * f
  {
  }

  /** Once over the cap, always over it. */
  lemma Larger(raw: real, max: real, f: real)
    requires raw > max > 0.0 && f >= 1.0
    ensures raw * f > max && max * f >= max
  {
    ProductNonNegative(raw, f - 1.0);
    ProductNonNegative(max, f - 1.0);
    assert raw * f == raw + raw * (f - 1.0) && max * f == max + max * (f - 1.0);
  }

  /** Jitter takes the delay down to between its half, for a draw of 0, and its
      whole; without it the delay is whole. */
  lemma JitterMeans(p: RetryPolicy, attempt: nat, draw: real)
    requires p.initialDelayMs > 0 && attempt >= 1
    ensures !p.jitter ==> DelayForAttempt(p, attempt, draw) == CappedDelay(p, attempt).Floor
    ensures p.jitter && draw == 0.0 ==> DelayForAttempt(p, attempt, draw) == (CappedDelay(p, attempt) / 2.0).Floor
    ensures p.jitter && draw == 0.5 ==> DelayForAttempt(p, attempt, draw) == (CappedDelay(p, attempt) * 0.75).Floor
  {
  }

  /** The named policies, by what they do: the first delay, the factor and the cap
      fix all further ones. A name that is none of them is the standard policy. */
  lemma PoliciesWait(cs: Charset, name: string, attempt: nat, draw: real)
    requires attempt >= 1
    ensures var p, n := PolicyByName(cs, name), ToLower(cs, name);
            && (n == "none" ==> DelayForAttempt(p, attempt, draw) == 0)
            && (n == "linear" ==> DelayForAttempt(p, attempt, draw) == 1000)
            && (n == "aggressive" ==>
                  CappedDelay(p, 1) == 50.0 && CappedDelay(p, 2) == 75.0 && p.maxDelayMs == 5000 && p.jitter)
            && (n == "patient" ==>
                  CappedDelay(p, 1) == 1000.0 && CappedDelay(p, 2) == 3000.0 && p.maxDelayMs == 120000 && p.jitter)
            && (n !in ["none", "linear", "aggressive", "patient"] ==>
                  CappedDelay(p, 1) == 200.0 && CappedDelay(p, 2) == 400.0 && p.maxDelayMs == 60000 && p.jitter)
  {
    var p, n := PolicyByName(cs, name), ToLower(cs, name);
    hide ToLower;
    if n == "linear" {
      OnesPower(attempt - 1);
    }
    assert Power(p.backoffFactor, 0) == 1.0 && Power(p.backoffFactor, 1) == p.backoffFactor;
  }

  lemma {:induction false} OnesPower(n: nat)
    ensures Power(1.0, n) == 1.0
  {
    if n > 0 {
      OnesPower(n - 1);
    }
  }
}
