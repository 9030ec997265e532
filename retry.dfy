/** `retry_function`: call a fallible operation up to `retries` times, sleeping
    `delay * 2^attempt` seconds after each failed attempt but the last. */
module RetryExecutor {
  import opened Outcomes

  /** The defaults every caller in the program relies on. */
  const DefaultRetries: nat := 3
  const DefaultDelay: nat := 5

  function Pow2(n: nat): (p: nat)
    ensures p >= 1
  {
    if n == 0 then 1 else 2 * Pow2(n - 1)
  }

  /** What one call of `retry_function` did: the value it returned (`None`
      when every attempt raised), the seconds it slept, in order, and how many
      times it called the operation. */
  datatype Run<T> = Run(result: Option<T>, sleeps: seq<nat>, calls: nat)

  /** The `n` backoff sleeps that follow failed attempts `from`, ..., `from + n - 1`. */
  function Backoff(delay: nat, from: nat, n: nat): (s: seq<nat>)
    ensures |s| == n
    decreases n
  {
    if n == 0 then [] else [delay * Pow2(from)] + Backoff(delay, from + 1, n - 1)
  }

  /** The run from zero-based attempt `attempt` on. */
  function RetryFrom<T>(op: Script<T>, retries: nat, delay: nat, attempt: nat): (r: Run<T>)
    requires attempt <= retries
    ensures r.calls <= retries - attempt
    ensures r.calls == 0 <==> attempt == retries
    ensures |r.sleeps| == if r.calls == 0 then 0 else r.calls - 1
    decreases retries - attempt
  {
    if attempt == retries then Run(None, [], 0)
    else match op(attempt)
      case Returned(v) => Run(Some(v), [], 1)
      case Raised =>
        if attempt < retries - 1 then
          var rest := RetryFrom(op, retries, delay, attempt + 1);
          Run(rest.result, [delay * Pow2(attempt)] + rest.sleeps, rest.calls + 1)
        else
          Run(None, [], 1)
  }

  /** The whole run of `retry_function(op, retries, delay)`. */
  function Retry<T>(op: Script<T>, retries: nat, delay: nat): Run<T>
  {
    RetryFrom(op, retries, delay, 0)
  }

  /** `r` preceded by `calls` calls that raised and slept `sleeps`. */
  function After<T>(sleeps: seq<nat>, calls: nat, r: Run<T>): Run<T>
  {
    Run(r.result, sleeps + r.sleeps, calls + r.calls)
  }

  /** The loop of `retry_function`: returns the first value the operation
      returns, or `None` once `retries` attempts have raised. */
  method RetryFunction<T>(op: Script<T>, retries: nat, delay: nat)
    returns (result: Option<T>, sleeps: seq<nat>, calls: nat)
    ensures Run(result, sleeps, calls) == Retry(op, retries, delay)
  {
    sleeps, calls := [], 0;
    for attempt := 0 to retries
      invariant calls == attempt
      invariant Retry(op, retries, delay) == After(sleeps, calls, RetryFrom(op, retries, delay, attempt))
    {
      calls := calls + 1;
      match op(attempt) {
        case Returned(v) =>
          return Some(v), sleeps, calls;
        case Raised =>
          if attempt < retries - 1 {
            ghost var rest := RetryFrom(op, retries, delay, attempt + 1);
            assert (sleeps + [delay * Pow2(attempt)]) + rest.sleeps
                == sleeps + ([delay * Pow2(attempt)] + rest.sleeps);
            sleeps := sleeps + [delay * Pow2(attempt)];
          } else {
            return None, sleeps, calls;
          }
      }
    }
    assert sleeps + [] == sleeps;
    result := None;
  }

  lemma {:induction false} BackoffAt(delay: nat, from: nat, n: nat, i: nat)
    requires i < n
    ensures Backoff(delay, from, n)[i] == delay * Pow2(from + i)
    decreases i
  {
    if i > 0 {
      BackoffAt(delay, from + 1, n - 1, i - 1);
    }
  }

  /** Every sleep is the exponential backoff of its attempt: the `i`-th sleep
      (zero-based) lasts `delay * 2^i` seconds. */
  lemma SleepsAreExponential<T>(op: Script<T>, retries: nat, delay: nat, i: nat)
    requires i < |Retry(op, retries, delay).sleeps|
    ensures Retry(op, retries, delay).sleeps[i] == delay * Pow2(i)
  {
    SleepsFrom(op, retries, delay, 0, i);
  }

  lemma {:induction false} SleepsFrom<T>(op: Script<T>, retries: nat, delay: nat, attempt: nat, i: nat)
    requires attempt <= retries
    requires i < |RetryFrom(op, retries, delay, attempt).sleeps|
    ensures RetryFrom(op, retries, delay, attempt).sleeps[i] == delay * Pow2(attempt + i)
    decreases i
  {
    if i > 0 {
      SleepsFrom(op, retries, delay, attempt + 1, i - 1);
    }
  }

  lemma {:induction false} ReturnsFirstSuccessFrom<T>(op: Script<T>, retries: nat, delay: nat, attempt: nat, k: nat)
    requires attempt <= k < retries
    requires op(k).Returned?
    requires forall j: nat :: attempt <= j < k ==> op(j).Raised?
    ensures RetryFrom(op, retries, delay, attempt)
         == Run(Some(op(k).value), Backoff(delay, attempt, k - attempt), k - attempt + 1)
    decreases k - attempt
  {
    if attempt < k {
      ReturnsFirstSuccessFrom(op, retries, delay, attempt + 1, k);
    }
  }

  /** The first attempt `k` that does not raise decides the run: its value is
      returned unchanged (even when that value is itself `None`), the
      operation was called `k + 1` times, and the `k` failures before it slept
      `delay * 2^0`, ..., `delay * 2^(k-1)`. */
  lemma RetryReturnsFirstSuccess<T>(op: Script<T>, retries: nat, delay: nat, k: nat)
    requires k < retries
    requires op(k).Returned?
    requires forall j: nat :: j < k ==> op(j).Raised?
    ensures Retry(op, retries, delay) == Run(Some(op(k).value), Backoff(delay, 0, k), k + 1)
  {
    ReturnsFirstSuccessFrom(op, retries, delay, 0, k);
  }

  lemma {:induction false} ExhaustedFrom<T>(op: Script<T>, retries: nat, delay: nat, attempt: nat)
    requires attempt <= retries
    requires forall j: nat :: attempt <= j < retries ==> op(j).Raised?
    ensures RetryFrom(op, retries, delay, attempt)
         == Run(None, Backoff(delay, attempt, if attempt == retries then 0 else retries - 1 - attempt), retries - attempt)
    decreases retries - attempt
  {
    if attempt < retries - 1 {
      ExhaustedFrom(op, retries, delay, attempt + 1);
    }
  }

  /** When every attempt raises, the failure is not propagated: the run
      returns `None` after exactly `retries` calls, and there is no sleep
      after the final attempt. */
  lemma RetryExhausted<T>(op: Script<T>, retries: nat, delay: nat)
    requires forall j: nat :: j < retries ==> op(j).Raised?
    ensures Retry(op, retries, delay)
         == Run(None, Backoff(delay, 0, if retries == 0 then 0 else retries - 1), retries)
  {
    ExhaustedFrom(op, retries, delay, 0);
  }

  lemma {:induction false} ResultFrom<T>(op: Script<T>, retries: nat, delay: nat, attempt: nat)
    requires attempt <= retries
    ensures RetryFrom(op, retries, delay, attempt).result.Some?
        <==> exists k: nat :: attempt <= k < retries && op(k).Returned?
    decreases retries - attempt
  {
    if attempt < retries {
      ResultFrom(op, retries, delay, attempt + 1);
    }
  }

  /** `retry_function` returns a value exactly when one of the first
      `retries` calls does not raise. */
  lemma RetrySucceedsIff<T>(op: Script<T>, retries: nat, delay: nat)
    ensures Retry(op, retries, delay).result.Some?
        <==> exists k: nat :: k < retries && op(k).Returned?
  {
    ResultFrom(op, retries, delay, 0);
  }

  /** The documented case: fail, fail, succeed with the defaults returns the
      third call's value after sleeping exactly 5 then 10 seconds. */
  lemma FailTwiceThenSucceed<T>(op: Script<T>)
    requires op(0).Raised? && op(1).Raised? && op(2).Returned?
    ensures Retry(op, DefaultRetries, DefaultDelay) == Run(Some(op(2).value), [5, 10], 3)
  {
  }
}
