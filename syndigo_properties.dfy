/**
 * Properties of the retrying executor, stated over `Executes`, the
 * specification `SyndigoClient.Request` is proved against: how many attempts
 * a call makes, what it sends and logs on each, how long it pauses, and what
 * it returns.
 */
module SyndigoProperties {
  import opened Wrappers
  import opened RetryPolicy
  import opened Text
  import opened Syndigo

  // ---------------------------------------------------------------------------
  // The recursive specification functions, element by element

  lemma {:induction false} SentAt(c: SyndigoClient, verb: string, path: string, opts: Options,
                                  ids: seq<string>, k: nat, i: nat)
    requires i < k <= |ids|
    ensures c.Sent(verb, path, opts, ids, k)[i] == c.Outgoing(verb, path, opts, ids[i])
  {
    if i < k - 1 {
      SentAt(c, verb, path, opts, ids, k - 1, i);
    }
  }

  lemma {:induction false} SleepsAt(w: World, k: nat, i: nat)
    requires w.Covers(k) && i < k
    ensures Sleeps(w, k)[i] == AttemptDelay(w.outcomes[i], w.draws[i])
  {
    if i < k - 1 {
      SleepsAt(w, k - 1, i);
    }
  }

  lemma {:induction false} AllRetriedAt(os: seq<Outcome>, k: nat)
    requires k <= |os|
    ensures AllRetried(os, k) <==> forall i :: 0 <= i < k ==> Retried(os[i], i + 1)
  {
    if k > 0 {
      AllRetriedAt(os, k - 1);
    }
  }

  lemma {:induction false} RetriedBefore(os: seq<Outcome>, k: nat, i: nat)
    requires k <= |os| && AllRetried(os, k) && i < k
    ensures Retried(os[i], i + 1)
  {
    if i < k - 1 {
      RetriedBefore(os, k - 1, i);
    }
  }

  /** When `resp` is set, it it is the response of the latest attempt that obtained one. */
  lemma {:induction false} LastResponseIsLatest(os: seq<Outcome>, k: nat)
    requires k <= |os| && LastResponse(os, k).Some?
    ensures exists j :: 0 <= j < k && os[j] == Responded(LastResponse(os, k).value) &&
                        forall i :: j < i < k ==> os[i].Raised?
  {
    if os[k - 1].Raised? {
      LastResponseIsLatest(os, k - 1);
    }
  }

  /**
   * A call that returns at the retry decision returns the latest response,
   * which a later exception does not reset.
   */
  lemma ReturnedLatest(os: seq<Outcome>, n: nat)
    requires 0 < n <= |os|
    ensures Returned(os, n).Ok? ==>
              exists j :: 0 <= j < n && os[j] == Responded(Returned(os, n).value) &&
                          forall i :: j < i < n ==> os[i].Raised?
  {
    if LastResponse(os, n).Some? {
      LastResponseIsLatest(os, n);
    }
  }

  // ---------------------------------------------------------------------------
  // How many attempts a call makes

  /**
   * A reference count of attempts: from attempt `k` on, the attempts go on
   * while they are retried and the budget `max` lasts.
   */
  function StopAt(os: seq<Outcome>, max: nat, k: nat): (n: nat)
    requires 1 <= k <= max <= |os|
    ensures k <= n <= max
    decreases max - k
  {
    if k == max || !Retried(os[k - 1], k) then k else StopAt(os, max, k + 1)
  }

  lemma {:induction false} StopAtReaches(os: seq<Outcome>, max: nat, k: nat, n: nat)
    requires 1 <= k <= n <= max <= |os|
    requires forall i :: 0 <= i < n - 1 ==> Retried(os[i], i + 1)
    requires n == max || !Retried(os[n - 1], n)
    ensures StopAt(os, max, k) == n
    decreases max - k
  {
    if k < n {
      assert Retried(os[k - 1], k);
      StopAtReaches(os, max, k + 1, n);
    }
  }

  /** The number of attempts is the reference count. */
  lemma AttemptCount(c: SyndigoClient, verb: string, path: string, opts: Options, w: World,
                     result: Result<Response, CallError>, t: Transcript)
    requires w.Covers(c.maxAttempts)
    requires c.Executes(verb, path, opts, w, result, t)
    ensures |t.sent| == StopAt(w.outcomes, c.maxAttempts, 1)
  {
    AllRetriedAt(w.outcomes, |t.sent| - 1);
    StopAtReaches(w.outcomes, c.maxAttempts, 1, |t.sent|);
  }

  /** A call is determined by the client, its arguments and the world. */
  lemma ExecutesIsDeterministic(c: SyndigoClient, verb: string, path: string, opts: Options, w: World,
                                r1: Result<Response, CallError>, t1: Transcript,
                                r2: Result<Response, CallError>, t2: Transcript)
    requires w.Covers(c.maxAttempts)
    requires c.Executes(verb, path, opts, w, r1, t1)
    requires c.Executes(verb, path, opts, w, r2, t2)
    ensures r1 == r2 && t1 == t2
  {
    AttemptCount(c, verb, path, opts, w, r1, t1);
    AttemptCount(c, verb, path, opts, w, r2, t2);
    var n := |t1.sent|;
    assert |t2.sent| == n;
    assert t1.sent == t2.sent && t1.sleeps == t2.sleeps && t1.log == t2.log;
  }

  /** After retried attempts, the call stops at the first one that is not retryable. */
  lemma StopsAtFirstUnretryable(c: SyndigoClient, verb: string, path: string, opts: Options, w: World,
                                result: Result<Response, CallError>, t: Transcript, j: nat)
    requires w.Covers(c.maxAttempts)
    requires c.Executes(verb, path, opts, w, result, t)
    requires j < c.maxAttempts
    requires forall i :: 0 <= i < j ==> Retried(w.outcomes[i], i + 1)
    requires !Classify(w.outcomes[j]).Retryable?
    ensures |t.sent| == j + 1 && |t.sleeps| == j
    ensures result == Returned(w.outcomes, j + 1)
  {
    AttemptCount(c, verb, path, opts, w, result, t);
    StopAtReaches(w.outcomes, c.maxAttempts, 1, j + 1);
  }

  /**
   * A 2xx or a listed non-retryable status returns that response at once,
   * without a pause.
   */
  lemma EarlyReturn(c: SyndigoClient, verb: string, path: string, opts: Options, w: World,
                    result: Result<Response, CallError>, t: Transcript)
    requires w.Covers(c.maxAttempts)
    requires c.Executes(verb, path, opts, w, result, t)
    requires w.outcomes[0].Responded?
    requires var s := w.outcomes[0].response.status; 200 <= s < 300 || s in NON_RETRYABLE_STATUS
    ensures |t.sent| == 1 && t.sleeps == []
    ensures result == Ok(w.outcomes[0].response)
  {
    ClassifyTable(w.outcomes[0]);
    StopsAtFirstUnretryable(c, verb, path, opts, w, result, t, 0);
  }

  /**
   * When every attempt is retryable, and every one past `MAX_BACKOFF_ATTEMPT`
   * that is followed by a pause has a positive Retry-After hint, the budget
   * is spent: `maxAttempts` attempts and one pause fewer; the call then
   * returns the latest response, or raises `RuntimeError` when there was none.
   */
  lemma Exhausted(c: SyndigoClient, verb: string, path: string, opts: Options, w: World,
                  result: Result<Response, CallError>, t: Transcript)
    requires w.Covers(c.maxAttempts)
    requires c.Executes(verb, path, opts, w, result, t)
    requires forall i :: 0 <= i < c.maxAttempts ==> Classify(w.outcomes[i]).Retryable?
    requires forall i :: MAX_BACKOFF_ATTEMPT <= i < c.maxAttempts - 1 ==> HintMsOf(w.outcomes[i]) > 0
    ensures |t.sent| == c.maxAttempts && |t.sleeps| == c.maxAttempts - 1
    ensures result.Err? <==> forall i :: 0 <= i < c.maxAttempts ==> w.outcomes[i].Raised?
    ensures result.Err? ==> result.error == NoResponse(Some(w.outcomes[c.maxAttempts - 1].error))
    ensures result.Ok? ==>
              exists j :: 0 <= j < c.maxAttempts && w.outcomes[j] == Responded(result.value) &&
                          forall i :: j < i < c.maxAttempts ==> w.outcomes[i].Raised?
  {
    forall i | 0 <= i < c.maxAttempts - 1
      ensures Retried(w.outcomes[i], i + 1)
    {
    }
    AttemptCount(c, verb, path, opts, w, result, t);
    StopAtReaches(w.outcomes, c.maxAttempts, 1, c.maxAttempts);
    ReturnedLatest(w.outcomes, c.maxAttempts);
  }

  /**
   * An attempt past `MAX_BACKOFF_ATTEMPT` that is retryable within budget but
   * has no positive Retry-After hint ends the call with `OverflowError`:
   * `backoff_delay` raises before the retry is slept (or logged: `LogEvents`
   * gives one http-retry per pause).
   */
  lemma BackoffOverflowRaises(c: SyndigoClient, verb: string, path: string, opts: Options, w: World,
                              result: Result<Response, CallError>, t: Transcript, j: nat)
    requires w.Covers(c.maxAttempts)
    requires c.Executes(verb, path, opts, w, result, t)
    requires j + 1 < c.maxAttempts
    requires forall i :: 0 <= i < j ==> Retried(w.outcomes[i], i + 1)
    requires Classify(w.outcomes[j]).Retryable? && HintMsOf(w.outcomes[j]) <= 0 && BackoffOverflows(j + 1)
    ensures |t.sent| == j + 1 && |t.sleeps| == j
    ensures result == Err(BackoffOverflow)
  {
    AttemptCount(c, verb, path, opts, w, result, t);
    StopAtReaches(w.outcomes, c.maxAttempts, 1, j + 1);
  }

  // ---------------------------------------------------------------------------
  // What each attempt sends

  /**
   * Every attempt sends the upper-cased verb to the joined URL with the
   * caller's parameters and body, and the headers built for its own uuid4.
   */
  lemma SentRequests(c: SyndigoClient, verb: string, path: string, opts: Options, w: World,
                     result: Result<Response, CallError>, t: Transcript, i: nat)
    requires w.Covers(c.maxAttempts)
    requires c.Executes(verb, path, opts, w, result, t)
    requires i < |t.sent|
    ensures t.sent[i].verb == Upper(verb)
    ensures t.sent[i].url == JoinUrl(c.baseUrl, path)
    ensures t.sent[i].params == opts.params && t.sent[i].jsonBody == opts.jsonBody
    ensures t.sent[i].headers == OutHeaders(c.userAgent, w.requestIds[i], c.runId, opts.idempotencyKey, opts.headers)
  {
    SentAt(c, verb, path, opts, w.requestIds, |t.sent|, i);
  }

  /**
   * Two attempts of one call send the same headers except X-Request-ID, and
   * that one too when the caller sets it.
   */
  lemma AttemptsDifferOnlyInRequestId(c: SyndigoClient, verb: string, path: string, opts: Options, w: World,
                                      result: Result<Response, CallError>, t: Transcript,
                                      i: nat, j: nat, key: string)
    requires w.Covers(c.maxAttempts)
    requires c.Executes(verb, path, opts, w, result, t)
    requires i < |t.sent| && j < |t.sent|
    requires key != REQUEST_ID || key in opts.headers
    ensures t.sent[i].verb == t.sent[j].verb && t.sent[i].url == t.sent[j].url
    ensures key in t.sent[i].headers <==> key in t.sent[j].headers
    ensures key in t.sent[i].headers ==> t.sent[i].headers[key] == t.sent[j].headers[key]
  {
    SentRequests(c, verb, path, opts, w, result, t, i);
    SentRequests(c, verb, path, opts, w, result, t, j);
    HeadersDifferOnlyInRequestId(c.userAgent, w.requestIds[i], w.requestIds[j], c.runId,
                                 opts.idempotencyKey, opts.headers, key);
  }

  /** With fresh uuid4s and no caller override, every attempt has its own X-Request-ID. */
  lemma RequestIdsDistinct(c: SyndigoClient, verb: string, path: string, opts: Options, w: World,
                           result: Result<Response, CallError>, t: Transcript, i: nat, j: nat)
    requires w.Covers(c.maxAttempts) && w.FreshIds()
    requires c.Executes(verb, path, opts, w, result, t)
    requires i < j < |t.sent|
    requires REQUEST_ID !in opts.headers
    ensures REQUEST_ID in t.sent[i].headers && REQUEST_ID in t.sent[j].headers
    ensures t.sent[i].headers[REQUEST_ID] != t.sent[j].headers[REQUEST_ID]
  {
    SentRequests(c, verb, path, opts, w, result, t, i);
    SentRequests(c, verb, path, opts, w, result, t, j);
    OutHeadersContents(c.userAgent, w.requestIds[i], c.runId, opts.idempotencyKey, opts.headers);
    OutHeadersContents(c.userAgent, w.requestIds[j], c.runId, opts.idempotencyKey, opts.headers);
  }

  // ---------------------------------------------------------------------------
  // How long a call pauses

  /**
   * Every pause is positive and at most 10 seconds: a positive Retry-After
   * hint, capped at 10 000 ms, when the attempt gave one, and otherwise the
   * jittered backoff of that attempt.
   */
  lemma SleepsBounded(c: SyndigoClient, verb: string, path: string, opts: Options, w: World,
                      result: Result<Response, CallError>, t: Transcript, i: nat)
    requires w.Covers(c.maxAttempts) && w.Jittered()
    requires c.Executes(verb, path, opts, w, result, t)
    requires i < |t.sleeps|
    ensures 0.0 < t.sleeps[i] <= 10.0
    ensures HintMsOf(w.outcomes[i]) <= 0 ==> BackoffDefined(i + 1) && InJitterRange(i + 1, t.sleeps[i])
    ensures HintMsOf(w.outcomes[i]) > 0 ==>
              t.sleeps[i] * 1000.0 == Min(HintMsOf(w.outcomes[i]) as real, MAX_HINT_MS as real)
  {
    SleepsAt(w, |t.sent| - 1, i);
    RetriedBefore(w.outcomes, |t.sent| - 1, i);
    if HintMsOf(w.outcomes[i]) <= 0 {
      RetryDelayBounded(HintMsOf(w.outcomes[i]), i + 1, w.draws[i]);
    }
  }

  // ---------------------------------------------------------------------------
  // What a call logs

  /** The events of `log` projected through `f`, in order. */
  function Project(log: seq<Event>, f: Event -> seq<int>): (r: seq<int>)
    ensures log == [] ==> r == []
  {
    if log == [] then [] else f(log[0]) + Project(log[1..], f)
  }

  lemma {:induction false} ProjectAppend(a: seq<Event>, b: seq<Event>, f: Event -> seq<int>)
    ensures Project(a + b, f) == Project(a, f) + Project(b, f)
  {
    if a != [] {
      assert (a + b)[1..] == a[1..] + b;
      ProjectAppend(a[1..], b, f);
    } else {
      assert a + b == b;
    }
  }

  /** The attempt number an http-attempt or http-exception event reports. */
  function ReportedAttempt(e: Event): seq<int> {
    match e
    case HttpAttempt(_, _, attempt, _, _, _) => [attempt]
    case HttpException(attempt, _, _, _) => [attempt]
    case _ => []
  }

  /** The attempt number an http-success event reports. */
  function SucceededAttempt(e: Event): seq<int> {
    if e.HttpSuccess? then [e.attempts] else []
  }

  /** The pause an http-retry event announces. */
  function AnnouncedDelay(e: Event): seq<int> {
    if e.HttpRetry? then [e.nextDelayMs] else []
  }

  /** `[1, 2, ..., k]`. */
  function Upto(k: nat): (r: seq<int>)
    ensures |r| == k
  {
    if k == 0 then [] else Upto(k - 1) + [k]
  }

  /** The `next_delay_ms` of each pause. */
  function MillisAll(s: seq<real>): (r: seq<int>)
    ensures |r| == |s|
  {
    if s == [] then [] else MillisAll(s[..|s| - 1]) + [Millis(s[|s| - 1])]
  }

  lemma AttemptLogEvents(o: Outcome, attempt: nat, maxAttempts: nat, requestId: string, next: Option<real>)
    ensures var log := AttemptLog(o, attempt, maxAttempts, requestId, next);
      && Project(log, ReportedAttempt) == [attempt]
      && Project(log, SucceededAttempt) == (if Classify(o).Success? then [attempt] else [])
      && Project(log, AnnouncedDelay) == (match next case Some(d) => [Millis(d)] case None => [])
  {
    var report := [Report(o, attempt, maxAttempts, requestId)];
    var success := if Classify(o).Success? then [HttpSuccess(attempt, o.response.status, requestId)] else [];
    var retry := match next case Some(d) => [HttpRetry(Millis(d), attempt, maxAttempts)] case None => [];
    assert AttemptLog(o, attempt, maxAttempts, requestId, next) == report + success + retry;
    ProjectAppend(report + success, retry, ReportedAttempt);
    ProjectAppend(report, success, ReportedAttempt);
    ProjectAppend(report + success, retry, SucceededAttempt);
    ProjectAppend(report, success, SucceededAttempt);
    ProjectAppend(report + success, retry, AnnouncedDelay);
    ProjectAppend(report, success, AnnouncedDelay);
  }

  lemma {:induction false} RetriedLogEvents(w: World, maxAttempts: nat, k: nat)
    requires w.Covers(k) && AllRetried(w.outcomes, k)
    ensures Project(RetriedLog(w, maxAttempts, k), ReportedAttempt) == Upto(k)
    ensures Project(RetriedLog(w, maxAttempts, k), SucceededAttempt) == []
    ensures Project(RetriedLog(w, maxAttempts, k), AnnouncedDelay) == MillisAll(Sleeps(w, k))
  {
    if k > 0 {
      var o := w.outcomes[k - 1];
      var d := AttemptDelay(o, w.draws[k - 1]);
      var before := RetriedLog(w, maxAttempts, k - 1);
      var step := AttemptLog(o, k, maxAttempts, w.requestIds[k - 1], Some(d));
      RetriedLogEvents(w, maxAttempts, k - 1);
      AttemptLogEvents(o, k, maxAttempts, w.requestIds[k - 1], Some(d));
      ProjectAppend(before, step, ReportedAttempt);
      ProjectAppend(before, step, SucceededAttempt);
      ProjectAppend(before, step, AnnouncedDelay);
      assert Sleeps(w, k)[..k - 1] == Sleeps(w, k - 1);
    }
  }

  /** The log of a call that stops after attempt `n`. */
  function CallLog(w: World, maxAttempts: nat, n: nat): seq<Event>
    requires 1 <= n && w.Covers(n)
  {
    RetriedLog(w, maxAttempts, n - 1) + AttemptLog(w.outcomes[n - 1], n, maxAttempts, w.requestIds[n - 1], None)
  }

  /** The attempt events of a call's log are numbered 1 to `n`. */
  lemma CallLogAttempts(w: World, maxAttempts: nat, n: nat)
    requires 1 <= n && w.Covers(n) && AllRetried(w.outcomes, n - 1)
    ensures Project(CallLog(w, maxAttempts, n), ReportedAttempt) == Upto(n)
  {
    var o := w.outcomes[n - 1];
    RetriedLogEvents(w, maxAttempts, n - 1);
    AttemptLogEvents(o, n, maxAttempts, w.requestIds[n - 1], None);
    ProjectAppend(RetriedLog(w, maxAttempts, n - 1), AttemptLog(o, n, maxAttempts, w.requestIds[n - 1], None), ReportedAttempt);
  }

  /** The http-retry events of a call's log announce its pauses. */
  lemma CallLogRetries(w: World, maxAttempts: nat, n: nat)
    requires 1 <= n && w.Covers(n) && AllRetried(w.outcomes, n - 1)
    ensures Project(CallLog(w, maxAttempts, n), AnnouncedDelay) == MillisAll(Sleeps(w, n - 1))
  {
    var o := w.outcomes[n - 1];
    RetriedLogEvents(w, maxAttempts, n - 1);
    AttemptLogEvents(o, n, maxAttempts, w.requestIds[n - 1], None);
    ProjectAppend(RetriedLog(w, maxAttempts, n - 1), AttemptLog(o, n, maxAttempts, w.requestIds[n - 1], None), AnnouncedDelay);
  }

  /** A call's log has an http-success only for a final 2xx. */
  lemma CallLogSuccess(w: World, maxAttempts: nat, n: nat)
    requires 1 <= n && w.Covers(n) && AllRetried(w.outcomes, n - 1)
    ensures Project(CallLog(w, maxAttempts, n), SucceededAttempt) == if Classify(w.outcomes[n - 1]).Success? then [n] else []
  {
    var o := w.outcomes[n - 1];
    RetriedLogEvents(w, maxAttempts, n - 1);
    AttemptLogEvents(o, n, maxAttempts, w.requestIds[n - 1], None);
    ProjectAppend(RetriedLog(w, maxAttempts, n - 1), AttemptLog(o, n, maxAttempts, w.requestIds[n - 1], None), SucceededAttempt);
  }

  /** A call's log has one http-attempt or http-exception per attempt, numbered 1 to n. */
  lemma LoggedAttempts(c: SyndigoClient, verb: string, path: string, opts: Options, w: World,
                result: Result<Response, CallError>, t: Transcript)
    requires w.Covers(c.maxAttempts)
    requires c.Executes(verb, path, opts, w, result, t)
    ensures Project(t.log, ReportedAttempt) == Upto(|t.sent|)
  {
    var n := |t.sent|;
    assert t.log == CallLog(w, c.maxAttempts, n);
    CallLogAttempts(w, c.maxAttempts, n);
  }

  /** A call's log has one http-retry per pause, announcing its length in milliseconds. */
  lemma LoggedRetries(c: SyndigoClient, verb: string, path: string, opts: Options, w: World,
               result: Result<Response, CallError>, t: Transcript)
    requires w.Covers(c.maxAttempts)
    requires c.Executes(verb, path, opts, w, result, t)
    ensures |t.sleeps| == |t.sent| - 1
    ensures Project(t.log, AnnouncedDelay) == MillisAll(t.sleeps)
  {
    var n := |t.sent|;
    assert t.log == CallLog(w, c.maxAttempts, n);
    assert t.sleeps == Sleeps(w, n - 1);
    CallLogRetries(w, c.maxAttempts, n);
  }

  /** A call's log has an http-success, for the last attempt, exactly when that attempt was a 2xx. */
  lemma LoggedSuccess(c: SyndigoClient, verb: string, path: string, opts: Options, w: World,
               result: Result<Response, CallError>, t: Transcript)
    requires w.Covers(c.maxAttempts)
    requires c.Executes(verb, path, opts, w, result, t)
    ensures Project(t.log, SucceededAttempt) ==
              if Classify(w.outcomes[|t.sent| - 1]).Success? then [|t.sent|] else []
  {
    var n := |t.sent|;
    assert t.log == CallLog(w, c.maxAttempts, n);
    CallLogSuccess(w, c.maxAttempts, n);
  }

  /** A call that logged http-success returned the 2xx response of its last attempt. */
  lemma SuccessLogged(c: SyndigoClient, verb: string, path: string, opts: Options, w: World,
                      result: Result<Response, CallError>, t: Transcript)
    requires w.Covers(c.maxAttempts)
    requires c.Executes(verb, path, opts, w, result, t)
    requires Project(t.log, SucceededAttempt) != []
    ensures w.outcomes[|t.sent| - 1].Responded? && result == Ok(w.outcomes[|t.sent| - 1].response)
    ensures 200 <= result.value.status < 300
  {
    var n := |t.sent|;
    var o := w.outcomes[n - 1];
    LoggedSuccess(c, verb, path, opts, w, result, t);
    assert Classify(o).Success?;
    assert result == Returned(w.outcomes, n);
    assert LastResponse(w.outcomes, n) == Some(o.response);
  }

  // ---------------------------------------------------------------------------
  // Scenarios

  /**
   * Three 503s with a budget of three: three attempts, two backoff pauses of
   * the first two attempts' jitter ranges, and the third 503 returned.
   */
  lemma ThreeUnavailable(c: SyndigoClient, verb: string, path: string, opts: Options, w: World,
                         result: Result<Response, CallError>, t: Transcript)
    requires c.maxAttempts == 3
    requires w.Covers(3) && w.Jittered()
    requires forall i :: 0 <= i < 3 ==>
               (w.outcomes[i].Responded? && w.outcomes[i].response.status == 503 &&
                w.outcomes[i].response.retryAfter.Absent?)
    requires c.Executes(verb, path, opts, w, result, t)
    ensures |t.sent| == 3 && |t.sleeps| == 2
    ensures 0.25 <= t.sleeps[0] <= 0.75 && 0.5 <= t.sleeps[1] <= 1.5
    ensures result == Ok(w.outcomes[2].response)
  {
    forall i | 0 <= i < 3
      ensures Classify(w.outcomes[i]).Retryable?
    {
      ClassifyTable(w.outcomes[i]);
    }
    Exhausted(c, verb, path, opts, w, result, t);
    SleepsBounded(c, verb, path, opts, w, result, t, 0);
    SleepsBounded(c, verb, path, opts, w, result, t, 1);
    ExpDelaySchedule(1);
    ExpDelaySchedule(2);
  }

  /**
   * A 503 and then a transport exception with a budget of two: the 503
   * response is returned, not a `RuntimeError`.
   */
  lemma ResponseSurvivesLaterException(c: SyndigoClient, verb: string, path: string, opts: Options, w: World,
                                       result: Result<Response, CallError>, t: Transcript)
    requires c.maxAttempts == 2 && w.Covers(2)
    requires w.outcomes[0].Responded? && w.outcomes[0].response.status == 503
    requires w.outcomes[1].Raised?
    requires c.Executes(verb, path, opts, w, result, t)
    ensures |t.sent| == 2
    ensures result == Ok(w.outcomes[0].response)
  {
    ClassifyTable(w.outcomes[0]);
    ClassifyTable(w.outcomes[1]);
    Exhausted(c, verb, path, opts, w, result, t);
  }

  /** An exception and then a 200 with a budget of three: two attempts, one pause, the 200. */
  lemma SuccessOnSecondAttempt(c: SyndigoClient, verb: string, path: string, opts: Options, w: World,
                               result: Result<Response, CallError>, t: Transcript)
    requires c.maxAttempts == 3 && w.Covers(3)
    requires w.outcomes[0].Raised?
    requires w.outcomes[1].Responded? && w.outcomes[1].response.status == 200
    requires c.Executes(verb, path, opts, w, result, t)
    ensures |t.sent| == 2 && |t.sleeps| == 1
    ensures result == Ok(w.outcomes[1].response)
    ensures Project(t.log, SucceededAttempt) == [2]
  {
    ClassifyTable(w.outcomes[0]);
    ClassifyTable(w.outcomes[1]);
    StopsAtFirstUnretryable(c, verb, path, opts, w, result, t, 1);
    LoggedSuccess(c, verb, path, opts, w, result, t);
  }

  /**
   * Only exceptions: the call raises. Within a budget of
   * `MAX_BACKOFF_ATTEMPT + 1` it spends the budget and raises `RuntimeError`
   * with the last exception; with a larger budget `backoff_delay` overflows
   * after attempt 1025.
   */
  lemma OnlyExceptions(c: SyndigoClient, verb: string, path: string, opts: Options, w: World,
                       result: Result<Response, CallError>, t: Transcript)
    requires w.Covers(c.maxAttempts)
    requires forall i :: 0 <= i < c.maxAttempts ==> w.outcomes[i].Raised?
    requires c.Executes(verb, path, opts, w, result, t)
    ensures c.maxAttempts <= MAX_BACKOFF_ATTEMPT + 1 ==>
              |t.sent| == c.maxAttempts && result == Err(NoResponse(Some(w.outcomes[c.maxAttempts - 1].error)))
    ensures c.maxAttempts > MAX_BACKOFF_ATTEMPT + 1 ==>
              |t.sent| == MAX_BACKOFF_ATTEMPT + 1 && result == Err(BackoffOverflow)
  {
    forall i | 0 <= i < c.maxAttempts
      ensures Classify(w.outcomes[i]).Retryable? && HintMsOf(w.outcomes[i]) == 0
    {
      ClassifyTable(w.outcomes[i]);
    }
    if c.maxAttempts <= MAX_BACKOFF_ATTEMPT + 1 {
      Exhausted(c, verb, path, opts, w, result, t);
    } else {
      BackoffOverflowRaises(c, verb, path, opts, w, result, t, MAX_BACKOFF_ATTEMPT);
    }
  }

  /**
   * 503s without Retry-After on a budget above 1025: the call raises
   * `OverflowError` after attempt 1025, having paused 1024 times, instead of
   * returning the last 503.
   */
  lemma ManyUnavailable(c: SyndigoClient, verb: string, path: string, opts: Options, w: World,
                        result: Result<Response, CallError>, t: Transcript)
    requires c.maxAttempts > MAX_BACKOFF_ATTEMPT + 1 && w.Covers(c.maxAttempts)
    requires forall i :: 0 <= i <= MAX_BACKOFF_ATTEMPT ==>
               (w.outcomes[i].Responded? && w.outcomes[i].response.status == 503 &&
                w.outcomes[i].response.retryAfter.Absent?)
    requires c.Executes(verb, path, opts, w, result, t)
    ensures |t.sent| == MAX_BACKOFF_ATTEMPT + 1 && |t.sleeps| == MAX_BACKOFF_ATTEMPT
    ensures result == Err(BackoffOverflow)
  {
    forall i | 0 <= i < MAX_BACKOFF_ATTEMPT
      ensures Retried(w.outcomes[i], i + 1)
    {
      ClassifyTable(w.outcomes[i]);
    }
    var last := w.outcomes[MAX_BACKOFF_ATTEMPT];
    ClassifyTable(last);
    assert HintMsOf(last) == 0;
    BackoffOverflowRaises(c, verb, path, opts, w, result, t, MAX_BACKOFF_ATTEMPT);
  }

  /**
   * A 503 whose Retry-After is infinite, on a budget of one: the attempt is
   * logged as an http-exception with `OverflowError`, and the 503 response is
   * returned.
   */
  lemma InfiniteRetryAfter(c: SyndigoClient, verb: string, path: string, opts: Options, w: World,
                           result: Result<Response, CallError>, t: Transcript)
    requires c.maxAttempts == 1 && w.Covers(1)
    requires w.outcomes[0].Responded? && w.outcomes[0].response.status == 503
    requires w.outcomes[0].response.retryAfter == Present("inf", Infinite)
    requires c.Executes(verb, path, opts, w, result, t)
    ensures result == Ok(w.outcomes[0].response)
    ensures t.log == [HttpException(1, 1, "OverflowError", w.requestIds[0])]
    ensures t.sleeps == []
  {
  }

  /**
   * The same response on a budget of two: the attempt counts as retryable,
   * so the call pauses for the backoff draw and tries again; the 503 is
   * returned unless the second attempt obtains a response of its own.
   */
  lemma InfiniteRetryAfterRetried(c: SyndigoClient, verb: string, path: string, opts: Options, w: World,
                                  result: Result<Response, CallError>, t: Transcript)
    requires c.maxAttempts == 2 && w.Covers(2)
    requires w.outcomes[0].Responded? && w.outcomes[0].response.status == 503
    requires w.outcomes[0].response.retryAfter == Present("inf", Infinite)
    requires c.Executes(verb, path, opts, w, result, t)
    ensures |t.sent| == 2 && t.sleeps == [w.draws[0]]
    ensures t.log[..2] == [HttpException(1, 2, "OverflowError", w.requestIds[0]),
                           HttpRetry(Millis(w.draws[0]), 1, 2)]
    ensures result == Ok(if w.outcomes[1].Raised? then w.outcomes[0].response else w.outcomes[1].response)
  {
    ClassifyTable(w.outcomes[0]);
    assert |t.sent| == 2;
    assert result == Returned(w.outcomes, 2);
    assert LastResponse(w.outcomes, 1) == Some(w.outcomes[0].response);
    var first := AttemptLog(w.outcomes[0], 1, 2, w.requestIds[0], Some(AttemptDelay(w.outcomes[0], w.draws[0])));
    assert RetriedLog(w, 2, 1) == first;
    assert t.log == first + AttemptLog(w.outcomes[1], 2, 2, w.requestIds[1], None);
  }
}
