/**
 * The Syndigo API client: its normalised configuration and its retrying
 * request executor. The transport, the uuid4 generator and the random
 * generator are an oracle (`World`) supplied by the caller; the log events
 * the executor emits and the pauses it sleeps are returned in a `Transcript`.
 */
module Syndigo {
  import opened Wrappers
  import opened RetryPolicy
  import opened Text

  // ---------------------------------------------------------------------------
  // Requests, responses and what the transport does

  /** A response: its status, its Retry-After header and its body. */
  datatype Response = Response(status: int, retryAfter: RetryAfter, body: string)

  /** What one transport call yields: a response, or an exception. */
  datatype Outcome = Responded(response: Response) | Raised(error: Error)

  /** The keyword arguments of `request` besides the verb and the path. */
  datatype Options = Options(
    params: map<string, string>,
    jsonBody: Option<string>,
    headers: map<string, string>,
    idempotencyKey: Option<string>)

  /** What is handed to the transport on one attempt. */
  datatype OutRequest = OutRequest(
    verb: string,
    url: string,
    params: map<string, string>,
    jsonBody: Option<string>,
    headers: map<string, string>)

  /**
   * The environment of one logical call: the transport's outcome for the i-th
   * attempt, the uuid4 drawn for it, and the jittered backoff
   * `backoff_delay` would draw after it (any value of its jitter range).
   */
  datatype World = World(outcomes: seq<Outcome>, requestIds: seq<string>, draws: seq<real>)
  {
    /** The oracle answers the first `n` attempts. */
    predicate Covers(n: nat) {
      n <= |outcomes| && n <= |requestIds| && n <= |draws|
    }

    /**
     * Each draw lies in the jitter range of the attempt it follows, for every
     * attempt `backoff_delay` returns a delay for.
     */
    predicate Jittered() {
      forall i :: 0 <= i < |draws| && BackoffDefined(i + 1) ==> InJitterRange(i + 1, draws[i])
    }

    /** uuid4 values are pairwise distinct. */
    predicate FreshIds() {
      forall i, j :: 0 <= i < j < |requestIds| ==> requestIds[i] != requestIds[j]
    }
  }

  datatype Level = Info | Warning

  /** The key-value log events of a call (timing and size fields left out). */
  datatype Event =
    | HttpAttempt(level: Level, status: int, attempt: nat, maxAttempts: nat, requestId: string, retryAfterMs: int)
    | HttpSuccess(attempts: nat, status: int, requestId: string)
    | HttpException(attempt: nat, maxAttempts: nat, error: string, requestId: string)
    | HttpRetry(nextDelayMs: int, attempt: nat, maxAttempts: nat)

  /** The effects of one logical call: requests sent, events logged, pauses slept. */
  datatype Transcript = Transcript(sent: seq<OutRequest>, log: seq<Event>, sleeps: seq<real>)

  /**
   * What a call raises: the `RuntimeError` raised when no attempt obtained a
   * response, or the `OverflowError` of `backoff_delay` on an attempt past
   * `MAX_BACKOFF_ATTEMPT`, which `request` calls outside its `try`.
   */
  datatype CallError = NoResponse(cause: Option<Error>) | BackoffOverflow

  /** The exception `int(float("inf") * 1000)` raises. */
  const OVERFLOW_ERROR: Error := Error("OverflowError")

  // ---------------------------------------------------------------------------
  // Outgoing headers

  const USER_AGENT: string := "User-Agent"
  const REQUEST_ID: string := "X-Request-ID"
  const RUN_ID: string := "X-Run-ID"
  const ACCEPT: string := "Accept"
  const IDEMPOTENCY_KEY: string := "Idempotency-Key"
  const JSON: string := "application/json"

  /** Python truthiness of an optional string: present and non-empty. */
  predicate Truthy(s: Option<string>) {
    s.Some? && s.value != ""
  }

  /** The headers of one attempt: the built-in ones, then the caller's over them. */
  function OutHeaders(
    userAgent: string, requestId: string, runId: string,
    idempotencyKey: Option<string>, headers: map<string, string>): (h: map<string, string>)
    ensures {USER_AGENT, REQUEST_ID, RUN_ID, ACCEPT} + headers.Keys <= h.Keys
  {
    var builtIn := map[USER_AGENT := userAgent, REQUEST_ID := requestId, RUN_ID := runId, ACCEPT := JSON];
    var keyed := if Truthy(idempotencyKey) then builtIn[IDEMPOTENCY_KEY := idempotencyKey.value] else builtIn;
    keyed + headers
  }

  /**
   * Every attempt carries User-Agent, X-Request-ID, X-Run-ID and Accept, plus
   * Idempotency-Key exactly when the caller's key is non-empty (or the caller
   * sets that header); a header the caller supplies overrides the built-in one.
   */
  lemma OutHeadersContents(
    userAgent: string, requestId: string, runId: string,
    idempotencyKey: Option<string>, headers: map<string, string>)
    ensures var h := OutHeaders(userAgent, requestId, runId, idempotencyKey, headers);
      && h.Keys == {USER_AGENT, REQUEST_ID, RUN_ID, ACCEPT} + headers.Keys +
                   (if Truthy(idempotencyKey) then {IDEMPOTENCY_KEY} else {})
      && (forall k :: k in headers ==> h[k] == headers[k])
      && (USER_AGENT !in headers ==> h[USER_AGENT] == userAgent)
      && (REQUEST_ID !in headers ==> h[REQUEST_ID] == requestId)
      && (RUN_ID !in headers ==> h[RUN_ID] == runId)
      && (ACCEPT !in headers ==> h[ACCEPT] == JSON)
      && (IDEMPOTENCY_KEY !in headers && Truthy(idempotencyKey) ==> h[IDEMPOTENCY_KEY] == idempotencyKey.value)
      && (IDEMPOTENCY_KEY in h <==> Truthy(idempotencyKey) || IDEMPOTENCY_KEY in headers)
  {
  }

  /**
   * Two attempts differ in their headers at most in X-Request-ID, and not even
   * there when the caller sets that header.
   */
  lemma HeadersDifferOnlyInRequestId(
    userAgent: string, id1: string, id2: string, runId: string,
    idempotencyKey: Option<string>, headers: map<string, string>, k: string)
    requires k != REQUEST_ID || k in headers
    ensures var h1 := OutHeaders(userAgent, id1, runId, idempotencyKey, headers);
            var h2 := OutHeaders(userAgent, id2, runId, idempotencyKey, headers);
            (k in h1 <==> k in h2) && (k in h1 ==> h1[k] == h2[k])
  {
  }

  // ---------------------------------------------------------------------------
  // Classifying one attempt

  /** The three ways an attempt can end. */
  datatype Decision = Success | NonRetryable | Retryable

  /** The `status` local after the attempt. */
  function StatusOf(o: Outcome): (s: Option<int>)
    ensures s.Some? <==> o.Responded?
    ensures s.Some? ==> s.value == o.response.status
  {
    match o
    case Responded(r) => Some(r.status)
    case Raised(_) => None
  }

  /** The `exc` local after the attempt: the transport's, or the Retry-After overflow. */
  function ErrorOf(o: Outcome): (e: Option<Error>)
    ensures o.Raised? ==> e == Some(o.error)
    ensures o.Responded? ==>
              e == if o.response.status in RETRYABLE_STATUS && o.response.retryAfter.Present? &&
                      o.response.retryAfter.text != "" && o.response.retryAfter.parsed.Infinite?
                   then Some(OVERFLOW_ERROR) else None
  {
    match o
    case Raised(err) => Some(err)
    case Responded(r) =>
      if RetryAfterHint(r.status, r.retryAfter).HintOverflow? then Some(OVERFLOW_ERROR) else None
  }

  /** The `retry_after_ms` local after the attempt. */
  function HintMsOf(o: Outcome): (ms: int)
    ensures ErrorOf(o).Some? ==> ms == 0
    ensures ms != 0 ==>
              o.Responded? && o.response.status in RETRYABLE_STATUS && o.response.retryAfter.Present? &&
              o.response.retryAfter.parsed.Number? && ms == Millis(o.response.retryAfter.parsed.seconds)
    ensures o.Responded? && o.response.status in RETRYABLE_STATUS && o.response.retryAfter.Present? &&
            o.response.retryAfter.text != "" && o.response.retryAfter.parsed.Number? ==>
              ms == Millis(o.response.retryAfter.parsed.seconds)
  {
    match o
    case Raised(_) => 0
    case Responded(r) =>
      match RetryAfterHint(r.status, r.retryAfter)
      case HintMs(ms) => ms
      case HintOverflow => 0
  }

  /** How the executor treats an attempt's outcome. */
  function Classify(o: Outcome): (d: Decision)
    ensures d.Retryable? <==> IsRetryable(StatusOf(o), ErrorOf(o))
    ensures d.Success? ==> o.Responded? && 200 <= o.response.status < 300
  {
    match o
    case Raised(_) => Retryable
    case Responded(r) =>
      if RetryAfterHint(r.status, r.retryAfter).HintOverflow? then Retryable
      else if 200 <= r.status < 300 then Success
      else if r.status in NON_RETRYABLE_STATUS then NonRetryable
      else if IsRetryable(Some(r.status), None) then Retryable
      else NonRetryable
  }

  /**
   * The classification table: a transport exception is retryable; 2xx is a
   * success; the listed non-retryable statuses and every other status outside
   * the retryable set end the call; the retryable statuses are retried.
   */
  lemma ClassifyTable(o: Outcome)
    ensures Classify(o).Success? <==> o.Responded? && 200 <= o.response.status < 300
    ensures o.Raised? ==> Classify(o).Retryable?
    ensures o.Responded? && o.response.status in NON_RETRYABLE_STATUS ==> Classify(o).NonRetryable?
    ensures o.Responded? && o.response.status in RETRYABLE_STATUS ==> Classify(o).Retryable?
    ensures o.Responded? && !(200 <= o.response.status < 300) && o.response.status !in RETRYABLE_STATUS ==>
              Classify(o).NonRetryable?
  {
  }

  /** The pause after an attempt that is retried. */
  function AttemptDelay(o: Outcome, jittered: real): real {
    RetryDelay(HintMsOf(o), jittered)
  }

  // ---------------------------------------------------------------------------
  // What a call logs

  /** The one event that describes an attempt: http-attempt or http-exception. */
  function Report(o: Outcome, attempt: nat, maxAttempts: nat, requestId: string): (e: Event)
    ensures e.HttpAttempt? || e.HttpException?
    ensures e.HttpException? <==> ErrorOf(o).Some?
  {
    match o
    case Raised(err) => HttpException(attempt, maxAttempts, err.kind, requestId)
    case Responded(r) =>
      match RetryAfterHint(r.status, r.retryAfter)
      case HintOverflow => HttpException(attempt, maxAttempts, OVERFLOW_ERROR.kind, requestId)
      case HintMs(ms) =>
        var level := if 200 <= r.status < 300 then Info else Warning;
        HttpAttempt(level, r.status, attempt, maxAttempts, requestId, ms)
  }

  /**
   * The fields of an attempt's event: an http-attempt carries the response's
   * status and hint, at INFO exactly for a 2xx; an http-exception carries the
   * exception's class name; both carry the attempt, the budget and the
   * request id.
   */
  lemma ReportFields(o: Outcome, attempt: nat, maxAttempts: nat, requestId: string)
    ensures var e := Report(o, attempt, maxAttempts, requestId);
      e.HttpAttempt? ==>
        && o.Responded? && e.status == o.response.status && e.retryAfterMs == HintMsOf(o)
        && (e.level == Info <==> 200 <= e.status < 300)
        && e.attempt == attempt && e.maxAttempts == maxAttempts && e.requestId == requestId
    ensures var e := Report(o, attempt, maxAttempts, requestId);
      e.HttpException? ==>
        && e.error == ErrorOf(o).value.kind
        && e.attempt == attempt && e.maxAttempts == maxAttempts && e.requestId == requestId
  {
  }

  /**
   * The events of one attempt: its report, an http-success when it succeeded,
   * and an http-retry when another attempt follows after `next` seconds.
   */
  function AttemptLog(o: Outcome, attempt: nat, maxAttempts: nat, requestId: string, next: Option<real>): seq<Event> {
    [Report(o, attempt, maxAttempts, requestId)]
    + (if Classify(o).Success? then [HttpSuccess(attempt, o.response.status, requestId)] else [])
    + (match next case Some(d) => [HttpRetry(Millis(d), attempt, maxAttempts)] case None => [])
  }

  lemma AttemptLogRetried(o: Outcome, attempt: nat, maxAttempts: nat, requestId: string, d: real)
    ensures AttemptLog(o, attempt, maxAttempts, requestId, Some(d)) ==
            AttemptLog(o, attempt, maxAttempts, requestId, None) + [HttpRetry(Millis(d), attempt, maxAttempts)]
  {
  }

  /** The events of the first `k` attempts of a call, each of which was retried. */
  function RetriedLog(w: World, maxAttempts: nat, k: nat): seq<Event>
    requires w.Covers(k)
  {
    if k == 0 then []
    else
      var o := w.outcomes[k - 1];
      RetriedLog(w, maxAttempts, k - 1)
      + AttemptLog(o, k, maxAttempts, w.requestIds[k - 1], Some(AttemptDelay(o, w.draws[k - 1])))
  }

  /**
   * Attempt number `attempt` is followed by another one when the budget
   * allows: it is retryable, and its pause can be computed (a positive hint,
   * or an attempt `backoff_delay` does not overflow on).
   */
  predicate Retried(o: Outcome, attempt: int) {
    Classify(o).Retryable? && !(HintMsOf(o) <= 0 && BackoffOverflows(attempt))
  }

  /** The first `k` attempts were all followed by another one. */
  predicate AllRetried(os: seq<Outcome>, k: nat)
    requires k <= |os|
  {
    k == 0 || (AllRetried(os, k - 1) && Retried(os[k - 1], k))
  }

  /** The pauses after the first `k` attempts, each of which was retried. */
  function Sleeps(w: World, k: nat): (s: seq<real>)
    requires w.Covers(k)
    ensures |s| == k
  {
    if k == 0 then [] else Sleeps(w, k - 1) + [AttemptDelay(w.outcomes[k - 1], w.draws[k - 1])]
  }

  // ---------------------------------------------------------------------------
  // What a call returns

  /** The `resp` local after `k` attempts: the most recent response obtained, if any. */
  function LastResponse(os: seq<Outcome>, k: nat): (r: Option<Response>)
    requires k <= |os|
    ensures r.None? <==> forall i :: 0 <= i < k ==> os[i].Raised?
  {
    if k == 0 then None
    else if os[k - 1].Responded? then Some(os[k - 1].response)
    else LastResponse(os, k - 1)
  }

  /**
   * What a call that made the attempts `os[..n]` returns at the retry
   * decision: the `RuntimeError`, carrying the last exception, exactly when
   * every attempt raised; otherwise the latest response.
   */
  function Returned(os: seq<Outcome>, n: nat): (r: Result<Response, CallError>)
    requires 0 < n <= |os|
    ensures r.Err? <==> forall i :: 0 <= i < n ==> os[i].Raised?
    ensures r.Err? ==> r.error == NoResponse(Some(os[n - 1].error))
  {
    match LastResponse(os, n)
    case Some(r) => Ok(r)
    case None => Err(NoResponse(ErrorOf(os[n - 1])))
  }

  // ---------------------------------------------------------------------------
  // The client

  /** A positive attempt budget. */
  type Positive = n: int | n >= 1 witness 1

  const DEFAULT_MAX_ATTEMPTS: int := 3
  const DEFAULT_USER_AGENT: string := "syndigo-integration/1.0"

  class SyndigoClient {
    const baseUrl: string
    const runId: string
    const maxAttempts: Positive
    const userAgent: string

    /**
     * The configuration of a client. `freshRunId` is the uuid4 used when the
     * caller gives no run id (or an empty one).
     */
    constructor (baseUrl: string, runId: Option<string>, freshRunId: string, maxAttempts: int, userAgent: string)
      ensures this.baseUrl == RStrip(baseUrl, '/')
      ensures this.runId == if Truthy(runId) then runId.value else freshRunId
      ensures this.maxAttempts == if maxAttempts < 1 then 1 else maxAttempts
      ensures this.userAgent == userAgent
    {
      this.baseUrl := RStrip(baseUrl, '/');
      this.runId := if Truthy(runId) then runId.value else freshRunId;
      this.maxAttempts := if maxAttempts < 1 then 1 else maxAttempts;
      this.userAgent := userAgent;
    }

    /** A client with the default attempt budget and user agent. */
    constructor WithDefaults(baseUrl: string, runId: Option<string>, freshRunId: string)
      ensures this.baseUrl == RStrip(baseUrl, '/')
      ensures this.runId == if Truthy(runId) then runId.value else freshRunId
      ensures this.maxAttempts == DEFAULT_MAX_ATTEMPTS
      ensures this.userAgent == DEFAULT_USER_AGENT
    {
      this.baseUrl := RStrip(baseUrl, '/');
      this.runId := if Truthy(runId) then runId.value else freshRunId;
      this.maxAttempts := DEFAULT_MAX_ATTEMPTS;
      this.userAgent := DEFAULT_USER_AGENT;
    }

    /** The request sent on an attempt whose uuid4 is `requestId`. */
    function Outgoing(verb: string, path: string, opts: Options, requestId: string): (r: OutRequest)
      ensures r.verb == Upper(verb) && r.url == JoinUrl(baseUrl, path)
      ensures r.params == opts.params && r.jsonBody == opts.jsonBody
      ensures {USER_AGENT, REQUEST_ID, RUN_ID, ACCEPT} + opts.headers.Keys <= r.headers.Keys
    {
      OutRequest(Upper(verb), JoinUrl(baseUrl, path), opts.params, opts.jsonBody,
                 OutHeaders(userAgent, requestId, runId, opts.idempotencyKey, opts.headers))
    }

    /** The requests of the first `k` attempts. */
    function Sent(verb: string, path: string, opts: Options, ids: seq<string>, k: nat): (s: seq<OutRequest>)
      requires k <= |ids|
      ensures |s| == k
    {
      if k == 0 then [] else Sent(verb, path, opts, ids, k - 1) + [Outgoing(verb, path, opts, ids[k - 1])]
    }

    /**
     * `result` and `t` are what `request(verb, path, opts)` returns and does
     * in the world `w`: the attempts stop at the first one that is not
     * retried or when the budget is spent; every attempt before the last is
     * followed by one pause. A last attempt that is retryable within budget
     * stopped because `backoff_delay` overflowed; otherwise the result is the
     * latest response obtained, or the error when there was none.
     */
    ghost predicate Executes(verb: string, path: string, opts: Options, w: World,
                             result: Result<Response, CallError>, t: Transcript)
      requires w.Covers(maxAttempts)
    {
      var n := |t.sent|;
      && 1 <= n <= maxAttempts
      && AllRetried(w.outcomes, n - 1)
      && (n == maxAttempts || !Retried(w.outcomes[n - 1], n))
      && t.sent == Sent(verb, path, opts, w.requestIds, n)
      && t.sleeps == Sleeps(w, n - 1)
      && t.log == RetriedLog(w, maxAttempts, n - 1)
                  + AttemptLog(w.outcomes[n - 1], n, maxAttempts, w.requestIds[n - 1], None)
      && result == (if n < maxAttempts && Classify(w.outcomes[n - 1]).Retryable? then Err(BackoffOverflow)
                    else Returned(w.outcomes, n))
    }

    /**
     * The `try` block of one attempt: send, read the status and the
     * Retry-After hint, log the attempt, and report whether the call returns
     * here (a 2xx or a listed non-retryable status).
     */
    method TryAttempt(o: Outcome, attempt: nat, requestId: string)
      returns (resp: Option<Response>, status: Option<int>, exc: Option<Error>,
               retryAfterMs: int, events: seq<Event>, returned: bool)
      ensures resp == if o.Responded? then Some(o.response) else None
      ensures status == StatusOf(o) && exc == ErrorOf(o) && retryAfterMs == HintMsOf(o)
      ensures returned <==> o.Responded? && exc.None? &&
                            (200 <= o.response.status < 300 || o.response.status in NON_RETRYABLE_STATUS)
      ensures events == AttemptLog(o, attempt, maxAttempts, requestId, None)
    {
      resp, status, exc, retryAfterMs, events, returned := None, None, None, 0, [], false;
      match o {
        case Raised(e) =>
          exc := Some(e);
          events := events + [HttpException(attempt, maxAttempts, e.kind, requestId)];
        case Responded(r) =>
          resp := Some(r);
          status := Some(r.status);
          var hint := RetryAfterHint(r.status, r.retryAfter);
          if hint.HintOverflow? {
            // int(float('inf') * 1000) escapes the inner `except ValueError`
            exc := Some(OVERFLOW_ERROR);
            events := events + [HttpException(attempt, maxAttempts, OVERFLOW_ERROR.kind, requestId)];
          } else {
            retryAfterMs := hint.ms;
            var level := if 200 <= r.status < 300 then Info else Warning;
            events := events + [HttpAttempt(level, r.status, attempt, maxAttempts, requestId, retryAfterMs)];
            if 200 <= r.status < 300 {
              events := events + [HttpSuccess(attempt, r.status, requestId)];
              returned := true;
            } else if r.status in NON_RETRYABLE_STATUS {
              returned := true;
            }
          }
      }
    }

    /**
     * The state of `request` before attempt number `attempt`: every earlier
     * attempt was sent, logged, found retryable and followed by its pause, and
     * `resp` is the latest response obtained so far.
     */
    ghost predicate Before(verb: string, path: string, opts: Options, w: World, attempt: nat,
                           resp: Option<Response>, sent: seq<OutRequest>, log: seq<Event>, sleeps: seq<real>)
      requires w.Covers(maxAttempts)
    {
      && 1 <= attempt <= maxAttempts
      && sent == Sent(verb, path, opts, w.requestIds, attempt - 1)
      && sleeps == Sleeps(w, attempt - 1)
      && AllRetried(w.outcomes, attempt - 1)
      && log == RetriedLog(w, maxAttempts, attempt - 1)
      && resp == LastResponse(w.outcomes, attempt - 1)
    }

    /** Before the first attempt nothing has been sent, logged or slept. */
    lemma Initially(verb: string, path: string, opts: Options, w: World)
      requires w.Covers(maxAttempts)
      ensures Before(verb, path, opts, w, 1, None, [], [], [])
    {
    }

    /** An attempt after which `request` returns completes an execution. */
    lemma Finished(verb: string, path: string, opts: Options, w: World, n: nat,
                   resp: Option<Response>, sent: seq<OutRequest>, log: seq<Event>, sleeps: seq<real>,
                   result: Result<Response, CallError>)
      requires w.Covers(maxAttempts)
      requires Before(verb, path, opts, w, n, resp, sent, log, sleeps)
      requires n == maxAttempts || !Retried(w.outcomes[n - 1], n)
      requires result == if n < maxAttempts && Classify(w.outcomes[n - 1]).Retryable? then Err(BackoffOverflow)
                         else Returned(w.outcomes, n)
      ensures Executes(verb, path, opts, w, result,
                       Transcript(sent + [Outgoing(verb, path, opts, w.requestIds[n - 1])],
                                  log + AttemptLog(w.outcomes[n - 1], n, maxAttempts, w.requestIds[n - 1], None),
                                  sleeps))
    {
      var sent' := sent + [Outgoing(verb, path, opts, w.requestIds[n - 1])];
      assert sent' == Sent(verb, path, opts, w.requestIds, n);
      assert |sent'| == n;
    }

    /** An attempt that is retried extends the state before the next one. */
    lemma Continued(verb: string, path: string, opts: Options, w: World, n: nat,
                    resp: Option<Response>, sent: seq<OutRequest>, log: seq<Event>, sleeps: seq<real>)
      requires w.Covers(maxAttempts)
      requires Before(verb, path, opts, w, n, resp, sent, log, sleeps)
      requires n < maxAttempts && Retried(w.outcomes[n - 1], n)
      ensures var o := w.outcomes[n - 1];
              Before(verb, path, opts, w, n + 1,
                     if o.Responded? then Some(o.response) else resp,
                     sent + [Outgoing(verb, path, opts, w.requestIds[n - 1])],
                     log + AttemptLog(o, n, maxAttempts, w.requestIds[n - 1], Some(AttemptDelay(o, w.draws[n - 1]))),
                     sleeps + [AttemptDelay(o, w.draws[n - 1])])
    {
      assert sent + [Outgoing(verb, path, opts, w.requestIds[n - 1])] == Sent(verb, path, opts, w.requestIds, n);
      assert sleeps + [AttemptDelay(w.outcomes[n - 1], w.draws[n - 1])] == Sleeps(w, n);
    }

    /**
     * One pass of the attempt loop: send, classify, and either end the call
     * (`done`: a return, or a raise) or log the retry and sleep.
     */
    method Attempt(verb: string, path: string, opts: Options, w: World, attempt: nat,
                   resp: Option<Response>, sent: seq<OutRequest>, log: seq<Event>, sleeps: seq<real>)
      returns (done: bool, result: Result<Response, CallError>,
               resp': Option<Response>, sent': seq<OutRequest>, log': seq<Event>, sleeps': seq<real>)
      requires w.Covers(maxAttempts)
      requires Before(verb, path, opts, w, attempt, resp, sent, log, sleeps)
      ensures done ==> Executes(verb, path, opts, w, result, Transcript(sent', log', sleeps'))
      ensures !done ==> attempt < maxAttempts && Before(verb, path, opts, w, attempt + 1, resp', sent', log', sleeps')
    {
      // `request` joins the URL once before the loop; it is the same value on every attempt.
      var url := JoinUrl(baseUrl, path);
      var requestId := w.requestIds[attempt - 1];
      var outHeaders := OutHeaders(userAgent, requestId, runId, opts.idempotencyKey, opts.headers);
      sent' := sent + [OutRequest(Upper(verb), url, opts.params, opts.jsonBody, outHeaders)];
      assert sent' == sent + [Outgoing(verb, path, opts, requestId)];

      var o := w.outcomes[attempt - 1];
      var attemptResp, status, exc, retryAfterMs, events, returned := TryAttempt(o, attempt, requestId);
      log' := log + events;
      resp' := if attemptResp.Some? then attemptResp else resp;
      sleeps' := sleeps;
      done := true;
      if returned {
        result := Ok(attemptResp.value);
        Finished(verb, path, opts, w, attempt, resp, sent, log, sleeps, result);
        return;
      }

      // Decide to retry
      if attempt >= maxAttempts || !IsRetryable(status, exc) {
        if resp'.Some? {
          result := Ok(resp'.value);
        } else {
          result := Err(NoResponse(exc));
        }
        Finished(verb, path, opts, w, attempt, resp, sent, log, sleeps, result);
        return;
      }

      // Delay before retry
      var delay: real;
      if retryAfterMs > 0 {
        delay := (if retryAfterMs < MAX_HINT_MS then retryAfterMs else MAX_HINT_MS) as real / 1000.0;
      } else if BackoffOverflows(attempt) {
        // `backoff_delay` raises outside the `try`, before the retry is logged
        result := Err(BackoffOverflow);
        Finished(verb, path, opts, w, attempt, resp, sent, log, sleeps, result);
        return;
      } else {
        delay := w.draws[attempt - 1];
      }
      assert delay == RetryDelay(retryAfterMs, w.draws[attempt - 1]);
      log' := log' + [HttpRetry(Millis(delay), attempt, maxAttempts)];
      sleeps' := sleeps + [delay];
      done, result := false, Err(NoResponse(None));
      AttemptLogRetried(o, attempt, maxAttempts, requestId, delay);
      Continued(verb, path, opts, w, attempt, resp, sent, log, sleeps);
    }

    /** `request`: one logical call, realised as up to `maxAttempts` attempts. */
    method Request(verb: string, path: string, opts: Options, w: World)
      returns (result: Result<Response, CallError>, t: Transcript)
      requires w.Covers(maxAttempts)
      ensures Executes(verb, path, opts, w, result, t)
    {
      var attempt: nat := 1;
      var resp: Option<Response> := None;
      var sent: seq<OutRequest> := [];
      var log: seq<Event> := [];
      var sleeps: seq<real> := [];
      Initially(verb, path, opts, w);

      while true
        invariant Before(verb, path, opts, w, attempt, resp, sent, log, sleeps)
        decreases maxAttempts - attempt
      {
        var done;
        done, result, resp, sent, log, sleeps := Attempt(verb, path, opts, w, attempt, resp, sent, log, sleeps);
        if done {
          break;
        }
        attempt := attempt + 1;
      }
      t := Transcript(sent, log, sleeps);
    }

    method Get(path: string, opts: Options, w: World) returns (result: Result<Response, CallError>, t: Transcript)
      requires w.Covers(maxAttempts)
      ensures Executes("GET", path, opts, w, result, t)
    {
      result, t := Request("GET", path, opts, w);
    }

    method Post(path: string, opts: Options, w: World) returns (result: Result<Response, CallError>, t: Transcript)
      requires w.Covers(maxAttempts)
      ensures Executes("POST", path, opts, w, result, t)
    {
      result, t := Request("POST", path, opts, w);
    }

    method Put(path: string, opts: Options, w: World) returns (result: Result<Response, CallError>, t: Transcript)
      requires w.Covers(maxAttempts)
      ensures Executes("PUT", path, opts, w, result, t)
    {
      result, t := Request("PUT", path, opts, w);
    }

    method Patch(path: string, opts: Options, w: World) returns (result: Result<Response, CallError>, t: Transcript)
      requires w.Covers(maxAttempts)
      ensures Executes("PATCH", path, opts, w, result, t)
    {
      result, t := Request("PATCH", path, opts, w);
    }

    method Delete(path: string, opts: Options, w: World) returns (result: Result<Response, CallError>, t: Transcript)
      requires w.Covers(maxAttempts)
      ensures Executes("DELETE", path, opts, w, result, t)
    {
      result, t := Request("DELETE", path, opts, w);
    }
  }
}
