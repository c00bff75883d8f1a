/**
 * The retry helpers of the client: the two fixed status sets, the
 * retryable-failure classifier, the exponential backoff with jitter, and the
 * interpretation of a server's Retry-After header. Delays are seconds as reals;
 * the client's floats are not modelled bit for bit.
 */
module RetryPolicy {
  import opened Wrappers

  /** Statuses that mean "try again": rate limiting and unavailable upstreams. */
  const RETRYABLE_STATUS: set<int> := {429, 502, 503, 504}

  /** Statuses returned at once: the request itself is wrong. */
  const NON_RETRYABLE_STATUS: set<int> := {400, 401, 403, 404, 409, 422}

  /** An exception raised while attempting a call, identified by its class name. */
  datatype Error = Error(kind: string)

  /** `is_retryable(status_code, exc)`. */
  function IsRetryable(status: Option<int>, exc: Option<Error>): (r: bool)
    ensures exc.Some? ==> r
    ensures exc.None? ==> (r <==> status.Some? && status.value in RETRYABLE_STATUS)
    ensures r && exc.None? ==> status.value !in NON_RETRYABLE_STATUS && !(200 <= status.value < 300)
  {
    if exc.Some? then true
    else if status.Some? then status.value in RETRYABLE_STATUS
    else false
  }

  // ---------------------------------------------------------------------------
  // Exponential backoff with jitter

  /** The defaults of `backoff_delay`, the only values any caller uses. */
  const BASE_DELAY: real := 0.5
  const MAX_DELAY: real := 4.0

  function Pow2(k: nat): (p: nat)
    ensures p >= 1
  {
    if k == 0 then 1 else 2 * Pow2(k - 1)
  }

  function Min(a: real, b: real): (m: real)
    ensures m <= a && m <= b && (m == a || m == b)
  {
    if a <= b then a else b
  }

  /**
   * The last attempt `backoff_delay` can handle. `base * (2 ** (attempt - 1))`
   * multiplies a float by an integer, which Python first converts to a float;
   * `2 ** 1024` exceeds the largest double, so from attempt 1025 on the
   * conversion raises `OverflowError` instead of returning a delay.
   */
  const MAX_BACKOFF_ATTEMPT: int := 1024

  /** `backoff_delay(attempt)` raises `OverflowError`. */
  predicate BackoffOverflows(attempt: int) {
    attempt > MAX_BACKOFF_ATTEMPT
  }

  /** The attempts `backoff_delay` is called with and returns a delay for. */
  predicate BackoffDefined(attempt: int) {
    1 <= attempt && !BackoffOverflows(attempt)
  }

  /** `exp = min(cap, base * (2 ** (attempt - 1)))`. */
  function ExpDelay(attempt: int): (e: real)
    requires BackoffDefined(attempt)
    ensures 0.0 < e <= MAX_DELAY
    ensures e <= BASE_DELAY * Pow2(attempt - 1) as real
    ensures e == MAX_DELAY || e == BASE_DELAY * Pow2(attempt - 1) as real
  {
    Min(MAX_DELAY, BASE_DELAY * Pow2(attempt - 1) as real)
  }

  /**
   * `random.uniform(lo, hi)`, which computes `lo + (hi - lo) * random()`, for a
   * draw `u` of `random()`. The draw is taken from the closed unit interval,
   * since rounding may reach the upper bound.
   */
  function Uniform(lo: real, hi: real, u: real): (x: real)
    requires lo <= hi && 0.0 <= u <= 1.0
    ensures lo <= x <= hi
  {
    var w := hi - lo;
    MulUnitBound(w, u);
    lo + w * u
  }

  lemma MulUnitBound(w: real, u: real)
    requires w >= 0.0 && 0.0 <= u <= 1.0
    ensures 0.0 <= w * u <= w
  {
  }

  /** Every point of a non-empty range is some draw's result. */
  lemma UniformCovers(lo: real, hi: real, x: real)
    requires lo < hi && lo <= x <= hi
    ensures exists u :: 0.0 <= u <= 1.0 && Uniform(lo, hi, u) == x
  {
    var u := (x - lo) / (hi - lo);
    assert 0.0 <= u <= 1.0 by { DivUnit(x - lo, hi - lo); }
    assert (hi - lo) * u == x - lo;
    assert Uniform(lo, hi, u) == x;
  }

  lemma DivUnit(a: real, b: real)
    requires 0.0 <= a <= b && b > 0.0
    ensures 0.0 <= a / b <= 1.0
  {
  }

  /** `backoff_delay(attempt)` for the draw `u` of the random generator. */
  function BackoffDelay(attempt: int, u: real): (d: real)
    requires BackoffDefined(attempt) && 0.0 <= u <= 1.0
    ensures 0.5 * ExpDelay(attempt) <= d <= 1.5 * ExpDelay(attempt)
    ensures 0.0 < d <= 1.5 * MAX_DELAY
  {
    var e := ExpDelay(attempt);
    Uniform(e * 0.5, e * 1.5, u)
  }

  /** The delays the jitter allows after attempt `attempt`. */
  predicate InJitterRange(attempt: int, d: real)
    requires BackoffDefined(attempt)
  {
    0.5 * ExpDelay(attempt) <= d <= 1.5 * ExpDelay(attempt)
  }

  /**
   * The jitter range is exactly the set of values `backoff_delay(attempt)`
   * can return: every draw lands in it, and every point of it is some draw's.
   */
  lemma BackoffIsJitterRange(attempt: int, d: real)
    requires BackoffDefined(attempt)
    ensures InJitterRange(attempt, d) <==> exists u :: 0.0 <= u <= 1.0 && BackoffDelay(attempt, u) == d
  {
    if InJitterRange(attempt, d) {
      var e := ExpDelay(attempt);
      UniformCovers(e * 0.5, e * 1.5, d);
      var u :| 0.0 <= u <= 1.0 && Uniform(e * 0.5, e * 1.5, u) == d;
      assert BackoffDelay(attempt, u) == d;
    }
  }

  lemma {:induction false} Pow2AtLeast8(k: nat)
    requires k >= 3
    ensures Pow2(k) >= 8
  {
    if k > 3 {
      Pow2AtLeast8(k - 1);
    }
  }

  lemma {:induction false} Pow2Monotone(j: nat, k: nat)
    requires j <= k
    ensures Pow2(j) <= Pow2(k)
  {
    if j < k {
      Pow2Monotone(j, k - 1);
    }
  }

  /**
   * The unjittered schedule: 0.5 s, 1 s, 2 s, then capped at 4 s up to the
   * last attempt before the overflow.
   */
  lemma ExpDelaySchedule(attempt: int)
    requires BackoffDefined(attempt)
    ensures attempt == 1 ==> ExpDelay(attempt) == 0.5
    ensures attempt == 2 ==> ExpDelay(attempt) == 1.0
    ensures attempt == 3 ==> ExpDelay(attempt) == 2.0
    ensures 4 <= attempt ==> ExpDelay(attempt) == MAX_DELAY
  {
    if attempt >= 4 {
      Pow2AtLeast8(attempt - 1);
    }
  }

  /** Later attempts never wait less before jitter. */
  lemma ExpDelayMonotone(a: int, b: int)
    requires 1 <= a <= b && BackoffDefined(b)
    ensures ExpDelay(a) <= ExpDelay(b)
  {
    Pow2Monotone(a - 1, b - 1);
  }

  // ---------------------------------------------------------------------------
  // Retry-After

  /** Python's `int(x)` on a float: truncation toward zero. */
  function Truncate(x: real): (n: int)
    ensures x >= 0.0 ==> n >= 0 && n as real <= x < n as real + 1.0
    ensures x < 0.0 ==> n <= 0 && n as real - 1.0 < x <= n as real
  {
    if x >= 0.0 then x.Floor else -((-x).Floor)
  }

  /** `int(seconds * 1000)`. */
  function Millis(seconds: real): (ms: int)
    ensures seconds >= 0.0 ==> 0 <= ms && ms as real <= seconds * 1000.0 < ms as real + 1.0
    ensures seconds < 0.0 ==> ms <= 0 && ms as real - 1.0 < seconds * 1000.0 <= ms as real
  {
    Truncate(seconds * 1000.0)
  }

  /**
   * What `float(text)` does with a header value: a number (finite after
   * scaling to milliseconds), a `ValueError` (not a number, or NaN, which
   * `int` then rejects with `ValueError`), or an infinity (`inf`, or a value
   * so large that the scaled product overflows), on which `int` raises
   * `OverflowError`.
   */
  datatype FloatParse = Number(seconds: real) | NotNumeric | Infinite

  /** The `Retry-After` header of a response, if there is one. */
  datatype RetryAfter = Absent | Present(text: string, parsed: FloatParse)

  /**
   * The hint read from a response: milliseconds, or the `OverflowError` that
   * the inner `except ValueError` does not catch.
   */
  datatype Hint = HintMs(ms: int) | HintOverflow

  /** The `retry_after_ms` computed for a response with status `status`. */
  function RetryAfterHint(status: int, header: RetryAfter): (h: Hint)
    ensures status !in RETRYABLE_STATUS || header.Absent? ==> h == HintMs(0)
    ensures status in RETRYABLE_STATUS && header.Present? && header.text != "" && header.parsed.Number? ==>
              h == HintMs(Millis(header.parsed.seconds))
  {
    if status in RETRYABLE_STATUS && header.Present? && header.text != "" then
      match header.parsed
      case Number(seconds) => HintMs(Millis(seconds))
      case NotNumeric => HintMs(0)
      case Infinite => HintOverflow
    else
      HintMs(0)
  }

  /**
   * The header is read only for retryable statuses; an absent, empty or
   * malformed value gives 0; a non-empty number gives its milliseconds; a
   * non-zero hint comes from a number, and it is positive exactly when that
   * number is at least a millisecond.
   */
  lemma RetryAfterHintCases(status: int, header: RetryAfter)
    ensures var h := RetryAfterHint(status, header);
      && (status !in RETRYABLE_STATUS ==> h == HintMs(0))
      && (header.Absent? || header.text == "" ==> h == HintMs(0))
      && (header.Present? && header.parsed.NotNumeric? ==> h == HintMs(0))
      && (status in RETRYABLE_STATUS && header.Present? && header.text != "" && header.parsed.Number? ==>
            h == HintMs(Millis(header.parsed.seconds)))
      && (h.HintOverflow? <==>
            status in RETRYABLE_STATUS && header.Present? && header.text != "" && header.parsed.Infinite?)
      && (h.HintMs? && h.ms != 0 ==>
            status in RETRYABLE_STATUS && header.Present? && header.parsed.Number? &&
            (h.ms > 0 <==> header.parsed.seconds * 1000.0 >= 1.0))
  {
  }

  /** The longest pause a Retry-After hint can impose, in milliseconds. */
  const MAX_HINT_MS: int := 10_000

  /**
   * The delay before the next attempt: the server's hint, capped at ten
   * seconds, when it is positive; otherwise `jittered`, the value
   * `backoff_delay(attempt)` drew.
   */
  function RetryDelay(hintMs: int, jittered: real): (d: real)
    ensures hintMs > 0 ==> 0.0 < d <= 10.0
    ensures hintMs > 0 && hintMs <= MAX_HINT_MS ==> d * 1000.0 == hintMs as real
    ensures hintMs >= MAX_HINT_MS ==> d == 10.0
    ensures hintMs <= 0 ==> d == jittered
  {
    if hintMs > 0 then
      (if hintMs < MAX_HINT_MS then hintMs else MAX_HINT_MS) as real / 1000.0
    else
      jittered
  }

  /** Every pause lies in (0, 10] seconds when the draw is in its jitter range. */
  lemma RetryDelayBounded(hintMs: int, attempt: int, jittered: real)
    requires BackoffDefined(attempt) && InJitterRange(attempt, jittered)
    ensures 0.0 < RetryDelay(hintMs, jittered) <= 10.0
    ensures hintMs <= 0 ==> InJitterRange(attempt, RetryDelay(hintMs, jittered))
  {
  }

  /** A `Retry-After: 120` on a 429 waits ten seconds, whatever the attempt. */
  lemma RetryAfter120On429(jittered: real)
    ensures RetryAfterHint(429, Present("120", Number(120.0))) == HintMs(120000)
    ensures RetryDelay(120000, jittered) == 10.0
    ensures Millis(RetryDelay(120000, jittered)) == MAX_HINT_MS
  {
  }
}
