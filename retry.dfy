/** The rate-limited request executor (`executeWithRetry`): the single
    chokepoint through which every remote request of the core is sent. */
module RetryExecutor {
  import opened Outcomes

  /** At most this many calls are made for one request. */
  const MaxRetries: nat := 10

  /** What one call of `request.execute()` does. */
  datatype CallOutcome<T> =
    | Returns(value: T)
    | TooManyRequests(retryAfter: int)  // TooManyRequestsException with its Retry-After seconds
    | Throws(message: string)           // every other exception

  /** The executor's outcome when the `attempt`-th call is about to be made;
      `call(k)` is what the `k`-th call (counting from 0) does. */
  function RetryFrom<T>(call: nat -> CallOutcome<T>, attempt: nat): Response<T>
    decreases MaxRetries - attempt
  {
    if attempt >= MaxRetries then Err(RetryExhausted)
    else match call(attempt)
      case Returns(v) => Ok(v)
      case Throws(m) => Err(ApiFailure(m))
      case TooManyRequests(_) => RetryFrom(call, attempt + 1)
  }

  /** The number of calls made from the `attempt`-th one on. */
  function CallsFrom<T>(call: nat -> CallOutcome<T>, attempt: nat): nat
    decreases MaxRetries - attempt
  {
    if attempt >= MaxRetries then 0
    else if call(attempt).TooManyRequests? then 1 + CallsFrom(call, attempt + 1)
    else 1
  }

  function Retry<T>(call: nat -> CallOutcome<T>): Response<T> {
    RetryFrom(call, 0)
  }

  /** Runs the request until it returns, throws something other than a rate
      limit, or has been rate limited `MaxRetries` times. The backoff sleep of
      `retryAfter` seconds between calls is not modelled. */
  method ExecuteWithRetry<T>(call: nat -> CallOutcome<T>) returns (r: Response<T>, calls: nat)
    ensures r == Retry(call) && calls == CallsFrom(call, 0)
    ensures 1 <= calls <= MaxRetries
    ensures forall k :: 0 <= k < calls - 1 ==> call(k).TooManyRequests?
    ensures call(calls - 1).Returns? ==> r == Ok(call(calls - 1).value)
    ensures call(calls - 1).Throws? ==> r == Err(ApiFailure(call(calls - 1).message))
    ensures call(calls - 1).TooManyRequests? ==> calls == MaxRetries && r == Err(RetryExhausted)
  {
    var attempt := 0;
    while attempt < MaxRetries
      invariant 0 <= attempt <= MaxRetries
      invariant forall k :: 0 <= k < attempt ==> call(k).TooManyRequests?
      invariant Retry(call) == RetryFrom(call, attempt)
      invariant CallsFrom(call, 0) == attempt + CallsFrom(call, attempt)
    {
      match call(attempt) {
        case Returns(v) =>
          return Ok(v), attempt + 1;
        case Throws(m) =>
          return Err(ApiFailure(m)), attempt + 1;
        case TooManyRequests(_) =>
      }
      attempt := attempt + 1;
    }
    r, calls := Err(RetryExhausted), attempt;
  }

  /** `K` rate limits followed by a success: the value is returned after
      `K + 1` calls. */
  lemma {:induction false} SucceedsAfterRateLimits<T>(call: nat -> CallOutcome<T>, k: nat, from: nat)
    requires from <= k < MaxRetries
    requires forall j :: from <= j < k ==> call(j).TooManyRequests?
    requires call(k).Returns?
    ensures RetryFrom(call, from) == Ok(call(k).value)
    ensures CallsFrom(call, from) == k + 1 - from
    decreases k - from
  {
    if from < k {
      SucceedsAfterRateLimits(call, k, from + 1);
    }
  }

  /** The request fails with "Max retry attempts exceeded" exactly when the
      first `MaxRetries` calls are all rate limited, and then all of them
      were made. */
  lemma {:induction false} ExhaustedIffAllRateLimited<T>(call: nat -> CallOutcome<T>, from: nat)
    requires from <= MaxRetries
    ensures RetryFrom(call, from) == Err(RetryExhausted)
        <==> forall j :: from <= j < MaxRetries ==> call(j).TooManyRequests?
    ensures (forall j :: from <= j < MaxRetries ==> call(j).TooManyRequests?)
        ==> CallsFrom(call, from) == MaxRetries - from
    decreases MaxRetries - from
  {
    if from < MaxRetries {
      ExhaustedIffAllRateLimited(call, from + 1);
    }
  }

  /** Any failure other than a rate limit is passed on from the call where it
      occurs, and no further call is made. */
  lemma {:induction false} OtherFailurePropagates<T>(call: nat -> CallOutcome<T>, k: nat, from: nat)
    requires from <= k < MaxRetries
    requires forall j :: from <= j < k ==> call(j).TooManyRequests?
    requires call(k).Throws?
    ensures RetryFrom(call, from) == Err(ApiFailure(call(k).message))
    ensures CallsFrom(call, from) == k + 1 - from
    decreases k - from
  {
    if from < k {
      OtherFailurePropagates(call, k, from + 1);
    }
  }
}
