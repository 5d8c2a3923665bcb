/**
 * `retry_with_backoff` of src/utils.py. The wrapped call is an oracle that
 * says what its n-th invocation does; the wrapper's sleeps are returned as a
 * list of wait times instead of being slept.
 */
module Retrying {
  import opened Wrappers
  import opened Lists

  /** An exception raised by the wrapped call; `statusCode` is its `status_code` attribute, if it has one. */
  datatype Failure = Failure(statusCode: Option<int>)

  /** What one invocation of the wrapped call does. */
  datatype Outcome<+T> = Returned(value: T) | Failed(failure: Failure)

  /** What the wrapper does in the end: return, re-raise, or fall out of an empty loop with `None`. */
  datatype Final<+T> = Success(value: T) | Reraised(failure: Failure) | NoAttempt

  /** The decorator's parameters; delays are seconds. */
  datatype Policy = Policy(
    maxRetries: int,
    initialDelay: real,
    exponentialBase: real,
    maxDelay: real,
    retryableErrors: seq<int>)

  const RateLimited: int := 429

  /** The decorator's defaults; status 0 stands for a timeout or connection error. */
  const DefaultPolicy: Policy := Policy(3, 2.0, 2.0, 60.0, [0, 429, 500, 502, 503, 504])

  function Pow(base: real, n: nat): real {
    if n == 0 then 1.0 else base * Pow(base, n - 1)
  }

  function Min(a: real, b: real): real {
    if a <= b then a else b
  }

  /** `min(initial_delay * exponential_base ** attempt, max_delay)`. */
  function Exponential(p: Policy, attempt: nat): real {
    Min(p.initialDelay * Pow(p.exponentialBase, attempt), p.maxDelay)
  }

  /** A failure the wrapper re-raises at once: it has a status code outside the retryable list. */
  predicate Fatal(p: Policy, f: Failure) {
    f.statusCode.Some? && f.statusCode.value !in p.retryableErrors
  }

  /**
   * The wait before the next attempt after a retryable failure: the full
   * maximum on a rate limit, the capped exponential schedule otherwise. It
   * never exceeds the maximum delay.
   */
  function WaitTime(p: Policy, attempt: nat, f: Failure): (wait: real)
    ensures wait <= p.maxDelay
    ensures f.statusCode == Some(RateLimited) ==> wait == p.maxDelay
    ensures f.statusCode != Some(RateLimited) ==> wait == Exponential(p, attempt)
  {
    if f.statusCode == Some(RateLimited) then p.maxDelay else Exponential(p, attempt)
  }

  /** A whole run of the wrapper: how it ends, the waits it slept, and how many calls it made. */
  datatype Run<+T> = Run(final: Final<T>, waits: seq<real>, calls: nat)

  /** The run from attempt number `attempt` on. */
  function RetryFrom<T>(p: Policy, call: nat -> Outcome<T>, attempt: nat): Run<T>
    requires attempt <= p.maxRetries
    decreases p.maxRetries - attempt
  {
    match call(attempt)
    case Returned(v) => Run(Success(v), [], 1)
    case Failed(f) =>
      if Fatal(p, f) || attempt == p.maxRetries then Run(Reraised(f), [], 1)
      else
        var rest := RetryFrom(p, call, attempt + 1);
        Run(rest.final, [WaitTime(p, attempt, f)] + rest.waits, rest.calls + 1)
  }

  /** The wrapper applied hi `call`: attempts 0 .. maxRetries, or none at all when maxRetries < 0. */
  function Retry<T>(p: Policy, call: nat -> Outcome<T>): Run<T> {
    if p.maxRetries < 0 then Run(NoAttempt, [], 0) else RetryFrom(p, call, 0)
  }

  /** One attempt of the run from `attempt` on, as the loop takes it. */
  lemma RetryFromUnfold<T>(p: Policy, call: nat -> Outcome<T>, attempt: nat)
    requires attempt <= p.maxRetries
    ensures call(attempt).Returned? ==> RetryFrom(p, call, attempt) == Run(Success(call(attempt).value), [], 1)
    ensures call(attempt).Failed? && (Fatal(p, call(attempt).failure) || attempt == p.maxRetries) ==>
              RetryFrom(p, call, attempt) == Run(Reraised(call(attempt).failure), [], 1)
    ensures call(attempt).Failed? && !Fatal(p, call(attempt).failure) && attempt < p.maxRetries ==>
              var rest := RetryFrom(p, call, attempt + 1);
              RetryFrom(p, call, attempt) ==
                Run(rest.final, [WaitTime(p, attempt, call(attempt).failure)] + rest.waits, rest.calls + 1)
  {
  }

  /** The wrapper's loop, one attempt per iteration. */
  method RetryWithBackoff<T>(p: Policy, call: nat -> Outcome<T>) returns (final: Final<T>, waits: seq<real>, calls: nat)
    ensures Run(final, waits, calls) == Retry(p, call)
  {
    waits, calls := [], 0;
    var attempt: nat := 0;
    while attempt <= p.maxRetries
      invariant p.maxRetries < 0 ==> attempt == 0
      invariant p.maxRetries >= 0 ==> attempt <= p.maxRetries
      invariant calls == attempt && |waits| == attempt
      invariant p.maxRetries >= 0 ==>
        var rest := RetryFrom(p, call, attempt);
        Retry(p, call) == Run(rest.final, waits + rest.waits, calls + rest.calls)
      decreases p.maxRetries - attempt
    {
      var outcome := call(attempt);
      RetryFromUnfold(p, call, attempt);
      calls := calls + 1;
      match outcome {
        case Returned(v) =>
          assert waits + [] == waits;
          return Success(v), waits, calls;
        case Failed(f) =>
          if f.statusCode.Some? {
            var statusCode := f.statusCode.value;
            if statusCode !in p.retryableErrors {
              assert waits + [] == waits;
              return Reraised(f), waits, calls;
            }
          }
          var wait: real;
          if f.statusCode == Some(RateLimited) {
            wait := p.maxDelay;
          } else if f.statusCode == Some(0) {
            wait := Exponential(p, attempt);
          } else if f.statusCode.Some? {
            wait := Exponential(p, attempt);
          } else {
            wait := Exponential(p, attempt);
          }
          if attempt < p.maxRetries {
            assert wait == WaitTime(p, attempt, f);
            ghost var rest := RetryFrom(p, call, attempt + 1);
            AppendAssoc(waits, [wait], rest.waits);
            waits := waits + [wait];
          } else {
            assert waits + [] == waits;
            return Reraised(f), waits, calls;
          }
      }
      attempt := attempt + 1;
    }
    final := NoAttempt;
  }

  /** Every attempt in [lo, hi) raised a failure the wrapper retries. */
  ghost predicate RetriedThrough<T>(p: Policy, call: nat -> Outcome<T>, lo: nat, hi: nat) {
    forall i :: lo <= i < hi ==> call(i).Failed? && !Fatal(p, call(i).failure)
  }

  /** The waits slept after the retried failures of attempts [lo, hi). */
  function Schedule<T>(p: Policy, call: nat -> Outcome<T>, lo: nat, hi: nat): (waits: seq<real>)
    requires lo <= hi && RetriedThrough(p, call, lo, hi)
    ensures |waits| == hi - lo
    ensures forall i :: 0 <= i < |waits| ==> (waits[i] == WaitTime(p, lo + i, call(lo + i).failure))
    decreases hi - lo
  {
    if lo == hi then [] else [WaitTime(p, lo, call(lo).failure)] + Schedule(p, call, lo + 1, hi)
  }

  /**
   * Attempts that fail in a retryable way before the last one only add their
   * wait: the run lo `lo` is those waits followed by the run lo `hi`.
   */
  lemma {:induction false} RetriedPrefix<T>(p: Policy, call: nat -> Outcome<T>, lo: nat, hi: nat)
    requires lo <= hi <= p.maxRetries
    requires RetriedThrough(p, call, lo, hi)
    ensures (var rest := RetryFrom(p, call, hi);
             RetryFrom(p, call, lo) == Run(rest.final, Schedule(p, call, lo, hi) + rest.waits, (hi - lo) + rest.calls))
    decreases hi - lo
  {
    if lo < hi {
      RetriedPrefix(p, call, lo + 1, hi);
      var rest := RetryFrom(p, call, hi);
      assert [WaitTime(p, lo, call(lo).failure)] + (Schedule(p, call, lo + 1, hi) + rest.waits)
          == Schedule(p, call, lo, hi) + rest.waits;
    }
  }

  /**
   * The shape of every run lo `attempt`: one call more than waits, never
   * more calls than attempts left, and the i-th wait is the policy's wait for
   * the failure of attempt `attempt + i`, which was a retryable failure.
   */
  lemma {:induction false} RunShape<T>(p: Policy, call: nat -> Outcome<T>, attempt: nat)
    requires attempt <= p.maxRetries
    ensures var run := RetryFrom(p, call, attempt);
            && run.calls == |run.waits| + 1
            && run.calls <= p.maxRetries + 1 - attempt
            && RetriedThrough(p, call, attempt, attempt + |run.waits|)
            && run.waits == Schedule(p, call, attempt, attempt + |run.waits|)
    decreases p.maxRetries - attempt
  {
    match call(attempt)
    case Returned(v) =>
    case Failed(f) =>
      if !(Fatal(p, f) || attempt == p.maxRetries) {
        RunShape(p, call, attempt + 1);
      }
  }

  /**
   * The wrapped function is called at most `max_retries + 1` times, once more
   * than the wrapper sleeps; each sleep follows a retryable failure, lasts the
   * policy's wait for that attempt and is at most `max_delay`.
   */
  lemma CallsBounded<T>(p: Policy, call: nat -> Outcome<T>)
    ensures var run := Retry(p, call);
            && run.calls <= (if p.maxRetries < 0 then 0 else p.maxRetries + 1)
            && (p.maxRetries >= 0 ==> run.calls == |run.waits| + 1)
            && (forall i :: 0 <= i < |run.waits| ==>
                  call(i).Failed? && !Fatal(p, call(i).failure)
                  && run.waits[i] == WaitTime(p, i, call(i).failure)
                  && run.waits[i] <= p.maxDelay)
  {
    if p.maxRetries >= 0 {
      RunShape(p, call, 0);
      var run := Retry(p, call);
      forall i | 0 <= i < |run.waits|
        ensures call(i).Failed? && !Fatal(p, call(i).failure) && run.waits[i] == WaitTime(p, i, call(i).failure)
      {
        assert 0 <= i < 0 + |run.waits|;
      }
    }
  }

  /**
   * A failure with a non-retryable status code is re-raised as soon as it
   * happens: after k retried failures it ends the run with k + 1 calls and
   * no sleep after it; on the first attempt, with no sleep at all.
   */
  lemma FatalShortCircuit<T>(p: Policy, call: nat -> Outcome<T>, k: nat)
    requires k <= p.maxRetries
    requires RetriedThrough(p, call, 0, k)
    requires call(k).Failed? && Fatal(p, call(k).failure)
    ensures Retry(p, call) == Run(Reraised(call(k).failure), Schedule(p, call, 0, k), k + 1)
    ensures k == 0 ==> Retry(p, call).waits == []
  {
    RetriedPrefix(p, call, 0, k);
  }

  /** A success after k retried failures returns its value after k calls more and k sleeps. */
  lemma SuccessAfterRetries<T>(p: Policy, call: nat -> Outcome<T>, k: nat)
    requires k <= p.maxRetries
    requires RetriedThrough(p, call, 0, k)
    requires call(k).Returned?
    ensures Retry(p, call) == Run(Success(call(k).value), Schedule(p, call, 0, k), k + 1)
  {
    RetriedPrefix(p, call, 0, k);
  }

  /**
   * A call that always fails with the same retryable failure is made
   * `max_retries + 1` times with `max_retries` sleeps in between, then the
   * failure is re-raised; on a rate limit every sleep is the full maximum
   * delay, otherwise the i-th sleep is `min(initial * base^i, max)`.
   */
  lemma AlwaysFailingExhausts<T>(p: Policy, call: nat -> Outcome<T>, f: Failure)
    requires p.maxRetries >= 0 && !Fatal(p, f)
    requires forall i :: call(i) == Failed(f)
    ensures var run := Retry(p, call);
            && run.final == Reraised(f)
            && run.calls == p.maxRetries + 1
            && |run.waits| == p.maxRetries
            && (f.statusCode == Some(RateLimited) ==> forall i :: 0 <= i < |run.waits| ==> run.waits[i] == p.maxDelay)
            && (f.statusCode != Some(RateLimited) ==> forall i :: 0 <= i < |run.waits| ==> run.waits[i] == Exponential(p, i))
  {
    RetriedPrefix(p, call, 0, p.maxRetries);
  }

  /**
   * Under the default policy a call that always fails with a retryable code
   * other than the rate limit sleeps 2, 4 and 8 seconds across its four calls.
   */
  lemma DefaultScheduleOnServerError<T>(call: nat -> Outcome<T>, code: int)
    requires code in {0, 500, 502, 503, 504}
    requires forall i :: call(i) == Failed(Failure(Some(code)))
    ensures Retry(DefaultPolicy, call) == Run(Reraised(Failure(Some(code))), [2.0, 4.0, 8.0], 4)
  {
    assert code in DefaultPolicy.retryableErrors;
    AlwaysFailingExhausts(DefaultPolicy, call, Failure(Some(code)));
    var run := Retry(DefaultPolicy, call);
    assert Exponential(DefaultPolicy, 0) == 2.0;
    assert Exponential(DefaultPolicy, 1) == 4.0;
    assert Exponential(DefaultPolicy, 2) == 8.0;
    assert run.waits == [2.0, 4.0, 8.0];
  }
}
