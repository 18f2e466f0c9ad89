// `withRetry`: call an operation up to `maxRetries` times, waiting
// `delayMs * attempt` after each failure but the last. The operation is a
// function from the attempt number to its outcome; the waits are returned
// instead of slept.
module Retry {
  import opened Common

  const DefaultMaxRetries := 3
  const DefaultDelayMs := 1000

  /** What one call of the operation does. */
  datatype Outcome<T> = Success(value: T) | Failure(error: string)

  /** What `withRetry` throws: the operation's own error, or its own `'Retry exhausted'`. */
  datatype Thrown = OperationError(error: string) | RetryExhausted

  datatype RetryResult<T> = Returned(value: T) | Threw(thrown: Thrown)

  /** `option ?? fallback`: only a missing option takes the default, 0 included. */
  function Nullish(o: Option<int>, fallback: int): (r: int)
    ensures o.Some? ==> r == o.value
    ensures o.None? ==> r == fallback
  {
    if o.Some? then o.value else fallback
  }

  /** Every attempt from 1 up to, not including, `k` failed. */
  predicate FailedBefore<T>(fn: nat -> Outcome<T>, k: nat)
  {
    forall j: nat :: 1 <= j < k ==> fn(j).Failure?
  }

  /** The waits after the first `k` failures: `delayMs * 1`, …, `delayMs * k`. */
  function Waits(delayMs: int, k: nat): (w: seq<int>)
    ensures |w| == k
    ensures forall i :: 0 <= i < k ==> w[i] == delayMs * (i + 1)
  {
    if k == 0 then [] else Waits(delayMs, k - 1) + [delayMs * k]
  }

  /**
   * The retry loop. It stops at the first success and returns its value;
   * after `maxRetries` failures it rethrows the last error, and it waits
   * only between attempts. With no attempts allowed it throws
   * `RetryExhausted` without calling the operation.
   */
  method WithRetry<T>(fn: nat -> Outcome<T>, maxRetriesOption: Option<int>, delayMsOption: Option<int>)
      returns (r: RetryResult<T>, calls: nat, waits: seq<int>)
    ensures var maxRetries := Nullish(maxRetriesOption, DefaultMaxRetries);
      && calls <= (if maxRetries > 0 then maxRetries else 0)
      && FailedBefore(fn, calls)
      && (r.Returned? ==> calls >= 1 && fn(calls) == Success(r.value))
      && (r.Threw? && r.thrown.OperationError? ==> calls == maxRetries && fn(calls) == Failure(r.thrown.error))
      && (r == Threw(RetryExhausted) <==> maxRetries <= 0)
      && (maxRetries <= 0 ==> calls == 0)
      && waits == Waits(Nullish(delayMsOption, DefaultDelayMs), if calls == 0 then 0 else calls - 1)
  {
    var maxRetries := Nullish(maxRetriesOption, DefaultMaxRetries);
    var delayMs := Nullish(delayMsOption, DefaultDelayMs);
    calls, waits := 0, [];
    var attempt := 1;
    while attempt <= maxRetries
      invariant 1 <= attempt && calls == attempt - 1
      invariant maxRetries > 0 ==> attempt <= maxRetries
      invariant maxRetries <= 0 ==> attempt == 1
      invariant FailedBefore(fn, attempt)
      invariant waits == Waits(delayMs, attempt - 1)
      decreases maxRetries - attempt
    {
      calls := attempt;
      match fn(attempt) {
        case Success(v) =>
          waits := Waits(delayMs, attempt - 1);
          return Returned(v), calls, waits;
        case Failure(e) =>
          if attempt == maxRetries {
            return Threw(OperationError(e)), calls, waits;
          }
          waits := waits + [delayMs * attempt];
      }
      attempt := attempt + 1;
    }
    r := Threw(RetryExhausted);
  }

  /** The waits add up to `delayMs * k * (k + 1) / 2`. */
  function Sum(w: seq<int>): int
  {
    if w == [] then 0 else Sum(w[..|w| - 1]) + w[|w| - 1]
  }

  lemma {:induction false} TotalWait(delayMs: int, k: nat)
    ensures 2 * Sum(Waits(delayMs, k)) == delayMs * k * (k + 1)
  {
    if k > 0 {
      var w := Waits(delayMs, k);
      assert w[..|w| - 1] == Waits(delayMs, k - 1);
      TotalWait(delayMs, k - 1);
      assert delayMs * k * (k + 1) == delayMs * (k - 1) * k + 2 * (delayMs * k);
    }
  }

  /** With the defaults, three failures wait 1000 ms and then 2000 ms, and the third error is thrown. */
  method DefaultsAfterThreeFailures() returns (r: RetryResult<int>, calls: nat, waits: seq<int>)
    ensures r == Threw(OperationError("down")) && calls == 3 && waits == [1000, 2000]
  {
    var fn := (attempt: nat) => Failure("down");
    r, calls, waits := WithRetry(fn, None, None);
    assert fn(calls).Failure?;
    assert Waits(1000, 2) == [1000, 2000] by {
      assert Waits(1000, 1) == [1000];
    }
  }

  /** An explicit 0 is kept by `??`: the operation is never called. */
  method ZeroRetriesNeverCalls() returns (r: RetryResult<int>, calls: nat)
    ensures r == Threw(RetryExhausted) && calls == 0
  {
    var fn := (attempt: nat) => Success(7);
    var waits;
    r, calls, waits := WithRetry(fn, Some(0), None);
  }
}
