# Syndigo API client: retrying request executor

This project models, in Dafny, the retry core of the Syndigo integration
client (`api_integration.py`):

- the two fixed status sets and the `is_retryable` classifier;
- `backoff_delay`, an exponential backoff capped at 4 s with ±50 % jitter,
  and the `OverflowError` it raises from attempt 1025 on;
- the reading of a `Retry-After` header on retryable statuses, and the choice
  of the next pause: the hint capped at 10 s, otherwise the backoff;
- the configuration `SyndigoClient.__init__` normalises: the base URL without
  trailing slashes, the run id or a fresh uuid4, and `max(1, max_attempts)`;
- `SyndigoClient.request`, the attempt loop. Each attempt builds its headers,
  sends, classifies the outcome and logs it. The loop then returns the
  response, raises `RuntimeError` or `OverflowError`, or pauses and tries
  again;
- the verb wrappers `get`, `post`, `put`, `patch` and `delete`.

Modules:

- `Wrappers`: the `Option` and `Result` types.
- `Text` (`text.dfy`): `rstrip`, `lstrip`, the URL join and ASCII `upper`.
- `RetryPolicy` (`retry_policy.dfy`): the status sets, `IsRetryable`, the
  backoff and the Retry-After arithmetic, with delays as exact reals.
- `Syndigo` (`syndigo_client.dfy`): the outgoing headers, the per-attempt
  classifier `Classify`, the log events, and the class `SyndigoClient`.
- `SyndigoProperties` (`syndigo_properties.dfy`): the properties of calls.

The class has `const` fields for the normalised configuration and imperative
methods for the loop:

- `Request` is a `while` loop.
- Each pass of the loop is the method `Attempt`.
- The `try`/`except` of one attempt is the method `TryAttempt`.

`Request` is proved against the predicate `SyndigoClient.Executes`. It defines
a call from recursive specification functions:

- `Sent`: the requests handed to the transport.
- `RetriedLog` and `AttemptLog`: the events logged.
- `Sleeps`: the pauses.
- `Returned`: what the call returns or raises at the retry decision.

The outside world is an oracle value, `World`. For attempt *i* it holds:

- the transport's outcome: a response, or an exception class name;
- the uuid4 drawn for `X-Request-ID`;
- the value `backoff_delay(i)` would return. `World.Jittered()` states that
  this value lies in the attempt's jitter range. `BackoffIsJitterRange` proves
  that range to be exactly the set of values `backoff_delay` can produce.

A call's effects are returned as a `Transcript`: the requests sent, the log
events and the pauses slept.

`backoff_delay` computes `0.5 * (2 ** (attempt - 1))`. Python converts the
integer power to a float first, and `2 ** 1024` is beyond the largest double.
So from attempt 1025 on, `backoff_delay` raises `OverflowError`. `request`
calls it at api_integration.py:186, outside its `try`. An attempt after the
1024th that is retryable, within budget and without a positive Retry-After
hint therefore ends the call with that exception. It is not logged as a
retry, and there is no pause. The model has this outcome:

- `RetryPolicy.BackoffOverflows` says when `backoff_delay` raises;
- `BackoffOverflow` is the call error it causes;
- the predicate `Retried` says that an attempt is followed by another one.

How an attempt's `Retry-After` value parses is abstracted as `FloatParse`.
The outcomes are a number of seconds, `ValueError`, or an infinity. In
`request`, `int(float("inf") * 1000)` raises `OverflowError`. The inner
`except ValueError` (api_integration.py:120) does not catch it, so the outer
`except Exception` does:

- the attempt is logged as http-exception;
- `exc` is set;
- `resp` keeps the response;
- the attempt is classified retryable (retried while budget remains).

The model follows `request` here: unlike a non-numeric value, an infinite one
is not treated as "no hint".

## Model

| member | source | states |
|---|---|---|
| RetryPolicy.IsRetryable | api_integration.py:27-33 | an exception is always retryable; without one, retryable exactly when a status is present and in {429, 502, 503, 504}; a retryable status is never 2xx nor in the non-retryable set |
| RetryPolicy.ExpDelay | api_integration.py:36 | for attempts 1 to 1024 the unjittered delay is positive, at most the 4 s cap, at most `0.5 * 2^(attempt-1)`, and equal to one of the two |
| RetryPolicy.ExpDelaySchedule | api_integration.py:36 | the unjittered schedule is 0.5 s, 1 s, 2 s, then 4 s from the fourth attempt up to attempt 1024 |
| RetryPolicy.ExpDelayMonotone | api_integration.py:36 | a later attempt, up to 1024, never has a smaller unjittered delay |
| RetryPolicy.Uniform | api_integration.py:37 | `random.uniform(lo, hi)` lies in `[lo, hi]` for every draw of `random()` |
| RetryPolicy.UniformCovers | api_integration.py:37 | every point of `[lo, hi]` is reached by some draw |
| RetryPolicy.BackoffDelay | api_integration.py:35-37 | the backoff lies between 0.5 and 1.5 times the unjittered delay, and in (0, 6] seconds |
| RetryPolicy.BackoffIsJitterRange | api_integration.py:35-37 | a value is in an attempt's jitter range exactly when some draw makes `backoff_delay` return it |
| RetryPolicy.Truncate | api_integration.py:119 | `int()` of a float truncates toward zero, for both signs |
| RetryPolicy.Millis | api_integration.py:119 | converting seconds to whole milliseconds (also `next_delay_ms` at line 193) truncates toward zero: for a non-negative value, the largest whole number of ms not above it; for a negative value, the smallest whole number not below it |
| RetryPolicy.RetryAfterHint | api_integration.py:114-121 | a non-retryable status, or a response without the header, gives a hint of 0; a non-empty numeric header on a retryable status gives its value in whole milliseconds |
| RetryPolicy.RetryAfterHintCases | api_integration.py:114-121 | the header is read only on retryable statuses; an absent, empty or non-numeric value gives 0; a non-empty number gives its value in whole milliseconds; an infinite value gives the overflow; a non-zero hint comes from a number and is positive exactly when that number is at least one millisecond |
| RetryPolicy.RetryDelay | api_integration.py:183-186 | a positive hint gives a pause in (0, 10] seconds: the hint itself up to 10 000 ms, and 10 s from there on; otherwise the backoff draw |
| RetryPolicy.RetryDelayBounded | api_integration.py:182-186 | with a draw in the jitter range, every pause is in (0, 10] seconds, and a pause without a hint is in the jitter range |
| RetryPolicy.RetryAfter120On429 | api_integration.py:114-121 | `Retry-After: 120` on a 429 gives a 120 000 ms hint, a 10 s pause and `next_delay_ms` 10 000 |
| Text.RStrip | api_integration.py:52 | the result is a prefix of the input, does not end with the character, and only that character was removed |
| Text.RStripIdempotent | api_integration.py:52 | stripping twice is stripping once |
| Text.LStrip | api_integration.py:75 | the result is a suffix of the input, does not start with the character, and only that character was removed |
| Text.JoinUrl | api_integration.py:75 | the URL is the base, one slash, then the path without its leading slashes |
| Text.JoinIgnoresLeadingSlashes | api_integration.py:75 | any number of leading slashes on the path gives the same URL |
| Text.SingleSlashAtSeam | api_integration.py:52-75 | a normalised base joined with any path has exactly one slash at the seam |
| Text.Upper | api_integration.py:99 | upper-casing keeps the length and maps every character through the ASCII upper-case map |
| Text.UpperIdempotent | api_integration.py:99 | upper-casing twice is upper-casing once |
| Text.VerbNames | api_integration.py:202-215 | the five verbs the wrappers pass are unchanged by upper-casing |
| Syndigo.OutHeaders | api_integration.py:80-90 | the headers of an attempt contain User-Agent, X-Request-ID, X-Run-ID, Accept and every caller header |
| Syndigo.OutHeadersContents | api_integration.py:80-90 | the headers are exactly User-Agent, X-Request-ID, X-Run-ID and Accept, plus Idempotency-Key when the key is truthy, plus the caller's; caller headers win; each built-in value appears when not overridden |
| Syndigo.HeadersDifferOnlyInRequestId | api_integration.py:80-90 | headers built for two request ids agree on every key except X-Request-ID, and on that one too when the caller sets it |
| Syndigo.StatusOf | api_integration.py:92-105 | `status` is set exactly when the transport returned a response, and is then that response's status |
| Syndigo.ErrorOf | api_integration.py:114-161 | `exc` is the transport's exception; for a response it is `OverflowError` exactly when the status is retryable and a non-empty Retry-After parses to an infinity, and otherwise unset |
| Syndigo.HintMsOf | api_integration.py:94-121 | `retry_after_ms` is 0 when the attempt has an `exc`; a non-empty numeric Retry-After on a retryable status gives its value in whole milliseconds, and a non-zero value comes only from such a header |
| Syndigo.Classify | api_integration.py:142-177 | an attempt is retryable exactly when `is_retryable(status, exc)` holds; a success is a 2xx response |
| Syndigo.ClassifyTable | api_integration.py:142-177 | success exactly for 2xx; an exception is retryable; the non-retryable set and every other non-2xx status outside the retryable set end the call; the retryable set is retried |
| Syndigo.Report | api_integration.py:126-174 | each attempt logs one http-attempt or http-exception event, http-exception exactly when the attempt has an `exc` |
| Syndigo.ReportFields | api_integration.py:126-174 | an http-attempt carries the response's status, its `retry_after_ms`, the attempt, the budget and the request id, at INFO exactly for a 2xx; an http-exception carries the exception's class name, the attempt, the budget and the request id |
| Syndigo.LastResponse | api_integration.py:77-98 | `resp` is still unset exactly when every attempt so far raised |
| Syndigo.Returned | api_integration.py:176-180 | at the retry decision a call raises `RuntimeError` exactly when every attempt raised, and then with the last attempt's exception |
| Syndigo.SyndigoClient.constructor | api_integration.py:52-56 | the base URL is right-stripped of slashes, the run id is the given one when truthy and otherwise a fresh uuid4, and the budget is `max(1, max_attempts)` |
| Syndigo.SyndigoClient.WithDefaults | api_integration.py:41-56 | the defaults are 3 attempts and the user agent `syndigo-integration/1.0` |
| Syndigo.SyndigoClient.Outgoing | api_integration.py:75-104 | an attempt sends the upper-cased verb to the joined URL with the caller's parameters and body, and headers that contain the four built-in keys and every caller header |
| Syndigo.SyndigoClient.TryAttempt | api_integration.py:92-174 | one attempt yields the response, the status, the `exc`, the hint and the attempt's events, and returns early exactly on a 2xx or non-retryable status without an exception |
| Syndigo.SyndigoClient.Attempt | api_integration.py:79-199 | one pass of the loop either completes an execution (a return, a `RuntimeError`, or the backoff `OverflowError`) or is retried within budget and extends the state by its request, its events and its pause |
| Syndigo.SyndigoClient.Request | api_integration.py:65-199 | the call satisfies `Executes`: it makes 1 to `max_attempts` attempts and stops at the first one that is not retried or when the budget is spent; it sends one request per attempt, logs each attempt, pauses once after each retried one; it raises `OverflowError` when the last attempt was retryable within budget, and otherwise returns the latest response, or raises `RuntimeError` with the last `exc` when there was none |
| Syndigo.SyndigoClient.Get | api_integration.py:202-203 | `get` executes the call with verb GET |
| Syndigo.SyndigoClient.Post | api_integration.py:205-206 | `post` executes the call with verb POST |
| Syndigo.SyndigoClient.Put | api_integration.py:208-209 | `put` executes the call with verb PUT |
| Syndigo.SyndigoClient.Patch | api_integration.py:211-212 | `patch` executes the call with verb PATCH |
| Syndigo.SyndigoClient.Delete | api_integration.py:214-215 | `delete` executes the call with verb DELETE |
| SyndigoProperties.SentAt | api_integration.py:80-104 | the i-th request sent is the one built for the i-th uuid4 |
| SyndigoProperties.SleepsAt | api_integration.py:182-198 | the i-th pause is the delay chosen after the i-th attempt |
| SyndigoProperties.AllRetriedAt | api_integration.py:177-186 | the attempts before the last were each retryable and had a pause that could be computed |
| SyndigoProperties.RetriedBefore | api_integration.py:177-186 | each attempt before the last was followed by another one |
| SyndigoProperties.LastResponseIsLatest | api_integration.py:98 | when `resp` is set, it is the response of the latest attempt that obtained one |
| SyndigoProperties.ReturnedLatest | api_integration.py:176-179 | a call that returns at the retry decision returns the latest response, which a later exception does not reset |
| SyndigoProperties.AttemptCount | api_integration.py:176-199 | the number of attempts is the reference count: the first attempt that is not retried, capped by the budget |
| SyndigoProperties.ExecutesIsDeterministic | api_integration.py:65-199 | the outcomes, ids and draws determine the result and every effect of a call |
| SyndigoProperties.StopsAtFirstUnretryable | api_integration.py:154-180 | after j retried attempts, a non-retryable one ends the call at attempt j+1 with j pauses |
| SyndigoProperties.EarlyReturn | api_integration.py:142-158 | a first 2xx or non-retryable response is returned after one attempt and no pause |
| SyndigoProperties.Exhausted | api_integration.py:176-186 | when every attempt is retryable and every one after the 1024th that is followed by a pause has a positive hint, the call makes `max_attempts` attempts and one pause fewer; it raises exactly when all of them raised, with the last exception, and otherwise returns the latest response |
| SyndigoProperties.BackoffOverflowRaises | api_integration.py:176-186 | after j retried attempts, a retryable attempt past the 1024th, within budget and without a positive hint, ends the call at attempt j+1 with j pauses and `OverflowError` |
| SyndigoProperties.SentRequests | api_integration.py:80-104 | every attempt sends the upper-cased verb, the joined URL, the caller's parameters and body, and the headers built for its own uuid4 |
| SyndigoProperties.AttemptsDifferOnlyInRequestId | api_integration.py:80-104 | two attempts of one call send the same verb and URL, and the same headers except X-Request-ID |
| SyndigoProperties.RequestIdsDistinct | api_integration.py:80-83 | with distinct uuid4s and no caller override, every attempt has its own X-Request-ID |
| SyndigoProperties.SleepsBounded | api_integration.py:182-198 | every pause is in (0, 10] seconds: the capped hint when the attempt gave one, otherwise a value of that attempt's jitter range |
| SyndigoProperties.CallLogAttempts | api_integration.py:126-174 | the log of a call that stops after attempt n has its attempt events numbered 1 to n |
| SyndigoProperties.CallLogRetries | api_integration.py:182-197 | the log of a call that stops after attempt n has one http-retry per pause, announcing each pause in ms |
| SyndigoProperties.CallLogSuccess | api_integration.py:142-154 | the log of a call that stops after attempt n has an http-success, for attempt n, exactly when that attempt was a 2xx |
| SyndigoProperties.LoggedAttempts | api_integration.py:126-174 | a call logs one http-attempt or http-exception per attempt, numbered 1 to n |
| SyndigoProperties.LoggedRetries | api_integration.py:176-197 | a call logs one http-retry per pause, announcing its length in ms, and pauses once fewer than it attempts |
| SyndigoProperties.LoggedSuccess | api_integration.py:142-154 | a call logs http-success, for its last attempt, exactly when that attempt was a 2xx |
| SyndigoProperties.SuccessLogged | api_integration.py:142-154 | a logged http-success means the call returned the last attempt's 2xx response |
| SyndigoProperties.ThreeUnavailable | api_integration.py:176-199 | three 503s with a budget of 3: three attempts, two pauses in [0.25, 0.75] and [0.5, 1.5] seconds, and the third 503 returned |
| SyndigoProperties.ResponseSurvivesLaterException | api_integration.py:160-180 | a 503 and then an exception with a budget of 2 return the 503 response, not `RuntimeError` |
| SyndigoProperties.SuccessOnSecondAttempt | api_integration.py:142-199 | an exception and then a 200 with a budget of 3: two attempts, one pause, the 200 returned, http-success logged for attempt 2 |
| SyndigoProperties.OnlyExceptions | api_integration.py:176-186 | only exceptions: with a budget of at most 1025 the budget is spent and `RuntimeError` carries the last exception; with a larger one the call raises `OverflowError` after attempt 1025 |
| SyndigoProperties.ManyUnavailable | api_integration.py:176-186 | 503s without Retry-After on a budget above 1025: 1025 attempts, 1024 pauses, then `OverflowError` instead of the last 503 |
| SyndigoProperties.InfiniteRetryAfter | api_integration.py:114-174 | a 503 with `Retry-After: inf` on a budget of 1: logged only as an http-exception with `OverflowError`, no pause, and the 503 returned |
| SyndigoProperties.InfiniteRetryAfterRetried | api_integration.py:114-199 | the same 503 on a budget of 2: two attempts, one pause of the backoff draw, logged as http-exception then http-retry; the 503 is returned unless the second attempt obtains a response of its own |

## Left out

- HTTP transport, Basic auth, timeouts and `close`: the transport is the oracle's sequence of outcomes; `httpx.Client` is not part of this model.
- Time: `duration_ms`, the `ts` field of `kvlog` and `time.sleep` are not modelled. The pauses are returned in the transcript instead of slept.
- Log fields: events keep the fields that depend on the retry logic (level of http-attempt, status, attempt, max, request id, retry-after ms, error class, next delay). They drop method, endpoint, run_id, result size, timings and `syndigo_request_id`. The downstream correlation-id lookup at api_integration.py:107-112 does not affect control flow and is left out. The JSON rendering of `kvlog` is left out, and so is the logger setup.
- Randomness and uuid4: supplied by the oracle. The model keeps one draw per attempt, also for attempts where `random` is not called: those whose pause comes from Retry-After, and those past the 1024th where `backoff_delay` raises. This changes no result.
- RetryPolicy.ExpDelay: defined for attempts 1 to 1024 only. `request` never passes an attempt below 1, and from 1025 on the call raises, which `BackoffOverflows` and the executor model. For attempts far below 1, Python's `2 ** (attempt - 1)` underflows to 0.0; that is not modelled.
- Only the default base (0.5 s) and cap (4 s) of `backoff_delay` are modelled; no caller passes others.
- Floating point: delays are exact reals. `min(10_000, ms) / 1000.0` and `int(delay * 1000)` are exact here, while IEEE doubles can round differently. `float()` parsing of the header is abstracted into `FloatParse` (a number, `ValueError`, or an infinity).
- Text.Upper: models `str.upper()` on ASCII only; Unicode case mapping is not modelled.
- Header names are compared case-sensitively as dictionary keys, as the outgoing dict does. httpx's later case-insensitive merging is not modelled.
- Request body, params and headers are opaque strings and string maps; JSON encoding is not modelled.
- The `_env` helper and the `__main__` example are left out, as are log_helpers.py, logging_config.py and request_context.py.
