/**
 * Delivery of one message to the configured webhook: a single send accepts
 * only a 200 or 202 reply whose body decodes, and the retry loop makes up to
 * `maxRetries` attempts with a linear backoff of `attempt * 5s` between them,
 * abandoning the loop when its context is cancelled during a wait.
 *
 * The network is an input: `endpoint(req, a)` is what the exchange of the
 * request `req` at attempt `a` came to, with the reply's body already decoded
 * (or not) as a `WebhookResponse`. `cancel(a)` is the context's error when the context
 * ends during the wait that follows attempt `a`.
 */
module Webhook {
  import opened Wrappers
  import opened Models
  import opened Text

  datatype WebhookConfig = WebhookConfig(url: string, authKey: string)

  /** The request a send issues. */
  datatype HttpRequest = HttpRequest(
    httpMethod: string,
    url: string,
    headers: map<string, string>,
    payload: WebhookRequest)

  /** The header that carries the auth key, in the canonical form `Header.Set` stores `x-ins-auth-key` under. */
  const AuthKeyHeader := "X-Ins-Auth-Key"

  /** A `POST` of the JSON payload to the webhook's URL, with the content type and the auth key set. */
  function BuildRequest(config: WebhookConfig, request: WebhookRequest): (r: HttpRequest)
    ensures r.httpMethod == "POST" && r.url == config.url && r.payload == request
    ensures r.headers.Keys == {"Content-Type", AuthKeyHeader}
    ensures r.headers["Content-Type"] == "application/json"
    ensures r.headers[AuthKeyHeader] == config.authKey
  {
    HttpRequest("POST", config.url,
                map["Content-Type" := "application/json", AuthKeyHeader := config.authKey],
                request)
  }

  /** How one exchange with the endpoint ended. */
  datatype Exchange =
    | RequestRefused(err: string)                  // the request could not be built
    | TransportFailed(err: string)                 // no response arrived
    | BodyUnreadable(status: int, err: string)     // the response body could not be read
    | Replied(status: int, body: string, decoded: Result<WebhookResponse, string>)

  /** The network: what the exchange of a request at a given attempt came to. */
  type Endpoint = (HttpRequest, nat) -> Exchange

  /** The errors a send and the retry loop report. */
  datatype SendError =
    | CreateFailed(cause: string)
    | HttpFailed(cause: string)
    | ReadFailed(cause: string)
    | BadStatus(status: int, body: string)
    | UnmarshalFailed(cause: string)
    | Cancelled(cause: string)
    | Exhausted(attempts: int, last: Option<SendError>)

  /** The text of each error, as `fmt.Errorf` renders it. */
  function ErrorText(e: SendError): string
  {
    match e
    case CreateFailed(c) => "failed to create request: " + c
    case HttpFailed(c) => "http request failed: " + c
    case ReadFailed(c) => "failed to read response: " + c
    case BadStatus(s, b) => "webhook returned status " + DecimalString(s) + ": " + b
    case UnmarshalFailed(c) => "failed to unmarshal response: " + c
    case Cancelled(c) => c
    case Exhausted(n, last) =>
      "all " + DecimalString(n) + " attempts failed, last error: " +
      match last
      case Some(l) => ErrorText(l)
      case None => "%!w(<nil>)"
  }

  /** Every error has a non-empty text when its cause does. */
  lemma {:induction false} ErrorTextNonEmpty(e: SendError)
    requires e.CreateFailed? || e.HttpFailed? || e.ReadFailed? || e.BadStatus? ||
             e.UnmarshalFailed? || e.Exhausted?
    ensures ErrorText(e) != ""
  {
    match e
    case CreateFailed(c) => assert |ErrorText(e)| >= |"failed to create request: "|;
    case HttpFailed(c) => assert |ErrorText(e)| >= |"http request failed: "|;
    case ReadFailed(c) => assert |ErrorText(e)| >= |"failed to read response: "|;
    case BadStatus(s, b) => assert |ErrorText(e)| >= |"webhook returned status "|;
    case UnmarshalFailed(c) => assert |ErrorText(e)| >= |"failed to unmarshal response: "|;
    case Exhausted(n, last) => assert |ErrorText(e)| >= |"all "|;
  }

  predicate Accepted(status: int) { status == 200 || status == 202 }

  /**
   * `SendMessage` at attempt `attempt`: the request sent is
   * `BuildRequest(config, request)`; then the checks in order – request built,
   * transport, body read, status 200 or 202, body decoded.
   */
  function SendMessage(config: WebhookConfig, request: WebhookRequest, endpoint: Endpoint, attempt: nat)
    : (r: Result<WebhookResponse, SendError>)
    ensures var x := endpoint(BuildRequest(config, request), attempt);
            && (r.Success? <==> x.Replied? && Accepted(x.status) && x.decoded.Success?)
            && (r.Success? ==> r.value == x.decoded.value)
            && (x.Replied? && !Accepted(x.status) ==> r == Failure(BadStatus(x.status, x.body)))
            && (x.TransportFailed? ==> r == Failure(HttpFailed(x.err)))
            && (x.BodyUnreadable? ==> r == Failure(ReadFailed(x.err)))
            && (x.RequestRefused? ==> r == Failure(CreateFailed(x.err)))
            && (x.Replied? && Accepted(x.status) && x.decoded.Failure? ==>
                  r == Failure(UnmarshalFailed(x.decoded.error)))
  {
    match endpoint(BuildRequest(config, request), attempt)
    case RequestRefused(e) => Failure(CreateFailed(e))
    case TransportFailed(e) => Failure(HttpFailed(e))
    case BodyUnreadable(_, e) => Failure(ReadFailed(e))
    case Replied(status, body, decoded) =>
      if status != 202 && status != 200 then Failure(BadStatus(status, body))
      else if decoded.Failure? then Failure(UnmarshalFailed(decoded.error))
      else Success(decoded.value)
  }

  /** The wait after failed attempt `attempt`. */
  function Backoff(attempt: int): Duration
  {
    attempt * 5 * Second
  }

  /** What a run of the retry loop did: its result, how many sends it made, the waits between them and the requests it sent. */
  datatype RetryTrace = RetryTrace(result: Result<WebhookResponse, SendError>, sends: nat, waits: seq<Duration>,
                                   requests: seq<HttpRequest>)

  /** The retry loop from attempt `attempt` on, with `lastErr` the error of the attempt before it. */
  function RetryFrom(config: WebhookConfig, request: WebhookRequest, endpoint: Endpoint, cancel: nat -> Option<string>, maxRetries: int,
                     attempt: nat, lastErr: Option<SendError>): RetryTrace
    requires attempt >= 1
    decreases if attempt <= maxRetries then maxRetries - attempt + 1 else 0
  {
    if attempt > maxRetries then RetryTrace(Failure(Exhausted(maxRetries, lastErr)), 0, [], [])
    else
      var sent := BuildRequest(config, request);
      var r := SendMessage(config, request, endpoint, attempt);
      if r.Success? then RetryTrace(r, 1, [], [sent])
      else if attempt == maxRetries then RetryTrace(Failure(Exhausted(maxRetries, Some(r.error))), 1, [], [sent])
      else if cancel(attempt).Some? then
        RetryTrace(Failure(Cancelled(cancel(attempt).value)), 1, [Backoff(attempt)], [sent])
      else
        var rest := RetryFrom(config, request, endpoint, cancel, maxRetries, attempt + 1, Some(r.error));
        RetryTrace(rest.result, rest.sends + 1, [Backoff(attempt)] + rest.waits, [sent] + rest.requests)
  }

  /** The whole retry loop. */
  function Retry(config: WebhookConfig, request: WebhookRequest, endpoint: Endpoint, cancel: nat -> Option<string>, maxRetries: int): RetryTrace
  {
    RetryFrom(config, request, endpoint, cancel, maxRetries, 1, None)
  }

  /**
   * `SendMessageWithRetry`: one send per attempt; on success return at once;
   * otherwise, while attempts remain, wait `attempt * 5s` unless the context ends first.
   */
  method SendMessageWithRetry(config: WebhookConfig, request: WebhookRequest, endpoint: Endpoint, cancel: nat -> Option<string>, maxRetries: int)
    returns (result: Result<WebhookResponse, SendError>, sends: nat, waits: seq<Duration>, requests: seq<HttpRequest>)
    ensures RetryTrace(result, sends, waits, requests) == Retry(config, request, endpoint, cancel, maxRetries)
  {
    var lastErr: Option<SendError> := None;
    sends, waits, requests := 0, [], [];
    var attempt: nat := 1;
    while attempt <= maxRetries
      invariant attempt >= 1 && sends == attempt - 1
      invariant var full := Retry(config, request, endpoint, cancel, maxRetries);
                var rest := RetryFrom(config, request, endpoint, cancel, maxRetries, attempt, lastErr);
                full == RetryTrace(rest.result, sends + rest.sends, waits + rest.waits, requests + rest.requests)
      decreases maxRetries - attempt
    {
      requests := requests + [BuildRequest(config, request)];
      var r := SendMessage(config, request, endpoint, attempt);
      sends := sends + 1;
      if r.Success? {
        result := r;
        return;
      }
      lastErr := Some(r.error);
      if attempt < maxRetries {
        waits := waits + [Backoff(attempt)];
        if cancel(attempt).Some? {
          result := Failure(Cancelled(cancel(attempt).value));
          return;
        }
      }
      attempt := attempt + 1;
    }
    result := Failure(Exhausted(maxRetries, lastErr));
  }

  /** Wait `i` of a run from `attempt` follows attempt `attempt + i`, so the waits grow linearly. */
  lemma {:induction false} WaitsAreLinear(config: WebhookConfig, request: WebhookRequest, endpoint: Endpoint, cancel: nat -> Option<string>,
                                          maxRetries: int, attempt: nat, lastErr: Option<SendError>)
    requires attempt >= 1
    ensures forall i :: 0 <= i < |RetryFrom(config, request, endpoint, cancel, maxRetries, attempt, lastErr).waits| ==>
              RetryFrom(config, request, endpoint, cancel, maxRetries, attempt, lastErr).waits[i] == Backoff(attempt + i)
    decreases if attempt <= maxRetries then maxRetries - attempt + 1 else 0
  {
    if attempt <= maxRetries {
      var r := SendMessage(config, request, endpoint, attempt);
      if r.Failure? && attempt < maxRetries && cancel(attempt).None? {
        WaitsAreLinear(config, request, endpoint, cancel, maxRetries, attempt + 1, Some(r.error));
        var rest := RetryFrom(config, request, endpoint, cancel, maxRetries, attempt + 1, Some(r.error));
        var t := RetryFrom(config, request, endpoint, cancel, maxRetries, attempt, lastErr);
        assert t.waits == [Backoff(attempt)] + rest.waits;
        forall i | 1 <= i < |t.waits| ensures t.waits[i] == Backoff(attempt + i) {
          assert t.waits[i] == rest.waits[i - 1] == Backoff(attempt + 1 + (i - 1));
        }
      }
    }
  }

  /** The waits of the loop are 5s, 10s, 15s, ... and so strictly increase. */
  lemma WaitsIncrease(config: WebhookConfig, request: WebhookRequest, endpoint: Endpoint, cancel: nat -> Option<string>, maxRetries: int)
    ensures var w := Retry(config, request, endpoint, cancel, maxRetries).waits;
            (forall i :: 0 <= i < |w| ==> w[i] == (i + 1) * 5 * Second)
            && (forall i, j :: 0 <= i < j < |w| ==> w[i] < w[j])
  {
    WaitsAreLinear(config, request, endpoint, cancel, maxRetries, 1, None);
    var w := Retry(config, request, endpoint, cancel, maxRetries).waits;
    assert forall i :: 0 <= i < |w| ==> w[i] == Backoff(1 + i);
  }

  /** A run makes at most one send per remaining attempt, and waits at most once per send and never after the last attempt. */
  lemma {:induction false} RetryBounds(config: WebhookConfig, request: WebhookRequest, endpoint: Endpoint, cancel: nat -> Option<string>,
                                       maxRetries: int, attempt: nat, lastErr: Option<SendError>)
    requires attempt >= 1
    ensures var t := RetryFrom(config, request, endpoint, cancel, maxRetries, attempt, lastErr);
            && t.sends <= (if attempt <= maxRetries then maxRetries - attempt + 1 else 0)
            && |t.waits| <= t.sends
            && |t.waits| <= (if attempt < maxRetries then maxRetries - attempt else 0)
            && (t.sends > 0 ==> |t.waits| >= t.sends - 1)
    decreases if attempt <= maxRetries then maxRetries - attempt + 1 else 0
  {
    if attempt <= maxRetries {
      var r := SendMessage(config, request, endpoint, attempt);
      if r.Failure? && attempt < maxRetries && cancel(attempt).None? {
        RetryBounds(config, request, endpoint, cancel, maxRetries, attempt + 1, Some(r.error));
      }
    }
  }

  /**
   * If attempts `attempt` to `k - 1` fail without a cancellation and attempt
   * `k` succeeds, the run makes exactly those sends and returns attempt `k`'s reply.
   */
  lemma {:induction false} SuccessAtAttempt(config: WebhookConfig, request: WebhookRequest, endpoint: Endpoint, cancel: nat -> Option<string>,
                                            maxRetries: int, attempt: nat, lastErr: Option<SendError>, k: nat)
    requires 1 <= attempt <= k <= maxRetries
    requires forall a: nat :: attempt <= a < k ==> SendMessage(config, request, endpoint, a).Failure? && cancel(a).None?
    requires SendMessage(config, request, endpoint, k).Success?
    ensures RetryFrom(config, request, endpoint, cancel, maxRetries, attempt, lastErr)
            == RetryTrace(SendMessage(config, request, endpoint, k), k - attempt + 1, WaitsBetween(attempt, k),
                          Repeat(BuildRequest(config, request), k - attempt + 1))
    decreases k - attempt
  {
    if attempt < k {
      var r := SendMessage(config, request, endpoint, attempt);
      SuccessAtAttempt(config, request, endpoint, cancel, maxRetries, attempt + 1, Some(r.error), k);
    }
  }

  /** The waits after attempts `from` to `to - 1`. */
  function WaitsBetween(from: int, to: int): (w: seq<Duration>)
    ensures |w| == (if from <= to then to - from else 0)
    ensures forall i :: 0 <= i < |w| ==> w[i] == Backoff(from + i)
    decreases if from < to then to - from else 0
  {
    if from >= to then []
    else
      var rest := WaitsBetween(from + 1, to);
      assert forall i :: 1 <= i < |rest| + 1 ==> ([Backoff(from)] + rest)[i] == rest[i - 1];
      [Backoff(from)] + rest
  }

  /** `n` copies of `x`. */
  function Repeat<T>(x: T, n: nat): (r: seq<T>)
    ensures |r| == n && forall i :: 0 <= i < n ==> r[i] == x
  {
    if n == 0 then [] else [x] + Repeat(x, n - 1)
  }

  /** Every send of a run posts the same request: the payload with both headers, to the configured URL. */
  lemma {:induction false} RequestsAreBuilt(config: WebhookConfig, request: WebhookRequest, endpoint: Endpoint,
                                            cancel: nat -> Option<string>, maxRetries: int, attempt: nat,
                                            lastErr: Option<SendError>)
    requires attempt >= 1
    ensures var t := RetryFrom(config, request, endpoint, cancel, maxRetries, attempt, lastErr);
            |t.requests| == t.sends && forall i :: 0 <= i < |t.requests| ==> t.requests[i] == BuildRequest(config, request)
    decreases if attempt <= maxRetries then maxRetries - attempt + 1 else 0
  {
    if attempt <= maxRetries {
      var r := SendMessage(config, request, endpoint, attempt);
      if r.Failure? && attempt < maxRetries && cancel(attempt).None? {
        RequestsAreBuilt(config, request, endpoint, cancel, maxRetries, attempt + 1, Some(r.error));
        var rest := RetryFrom(config, request, endpoint, cancel, maxRetries, attempt + 1, Some(r.error));
        var t := RetryFrom(config, request, endpoint, cancel, maxRetries, attempt, lastErr);
        assert t.requests == [BuildRequest(config, request)] + rest.requests;
        forall i | 1 <= i < |t.requests| ensures t.requests[i] == BuildRequest(config, request) {
          assert t.requests[i] == rest.requests[i - 1];
        }
      }
    }
  }

  /** When every attempt fails and no wait is cut short, all `maxRetries` attempts are made. */
  lemma {:induction false} AllAttemptsFail(config: WebhookConfig, request: WebhookRequest, endpoint: Endpoint, cancel: nat -> Option<string>,
                                           maxRetries: int, attempt: nat, lastErr: Option<SendError>)
    requires 1 <= attempt <= maxRetries
    requires forall a: nat :: attempt <= a <= maxRetries ==> SendMessage(config, request, endpoint, a).Failure?
    requires forall a: nat :: attempt <= a < maxRetries ==> cancel(a).None?
    ensures RetryFrom(config, request, endpoint, cancel, maxRetries, attempt, lastErr)
            == RetryTrace(Failure(Exhausted(maxRetries, Some(SendMessage(config, request, endpoint, maxRetries).error))),
                          maxRetries - attempt + 1, WaitsBetween(attempt, maxRetries),
                          Repeat(BuildRequest(config, request), maxRetries - attempt + 1))
    decreases maxRetries - attempt
  {
    if attempt < maxRetries {
      var r := SendMessage(config, request, endpoint, attempt);
      AllAttemptsFail(config, request, endpoint, cancel, maxRetries, attempt + 1, Some(r.error));
    }
  }

  /**
   * A cancellation during the wait after failed attempt `k` ends the run with
   * the context's error: `k` sends and `k` waits, the last cut short.
   */
  lemma {:induction false} CancelledDuringWait(config: WebhookConfig, request: WebhookRequest, endpoint: Endpoint, cancel: nat -> Option<string>,
                                               maxRetries: int, attempt: nat, lastErr: Option<SendError>, k: nat)
    requires 1 <= attempt <= k < maxRetries
    requires forall a: nat :: attempt <= a <= k ==> SendMessage(config, request, endpoint, a).Failure?
    requires forall a: nat :: attempt <= a < k ==> cancel(a).None?
    requires cancel(k).Some?
    ensures RetryFrom(config, request, endpoint, cancel, maxRetries, attempt, lastErr)
            == RetryTrace(Failure(Cancelled(cancel(k).value)), k - attempt + 1, WaitsBetween(attempt, k + 1),
                          Repeat(BuildRequest(config, request), k - attempt + 1))
    decreases k - attempt
  {
    if attempt < k {
      var r := SendMessage(config, request, endpoint, attempt);
      CancelledDuringWait(config, request, endpoint, cancel, maxRetries, attempt + 1, Some(r.error), k);
    }
  }

  /** With no attempts allowed, nothing is sent and the loop still reports an error naming the count. */
  lemma NoAttempts(config: WebhookConfig, request: WebhookRequest, endpoint: Endpoint, cancel: nat -> Option<string>, maxRetries: int)
    requires maxRetries <= 0
    ensures Retry(config, request, endpoint, cancel, maxRetries) == RetryTrace(Failure(Exhausted(maxRetries, None)), 0, [], [])
  {
  }

  /** A context that never ends never cancels the loop. */
  lemma {:induction false} NeverCancelledRun(config: WebhookConfig, request: WebhookRequest, endpoint: Endpoint, cancel: nat -> Option<string>,
                                             maxRetries: int, attempt: nat, lastErr: Option<SendError>)
    requires attempt >= 1
    requires forall a: nat :: cancel(a).None?
    ensures !(RetryFrom(config, request, endpoint, cancel, maxRetries, attempt, lastErr).result.Failure? &&
              RetryFrom(config, request, endpoint, cancel, maxRetries, attempt, lastErr).result.error.Cancelled?)
    decreases if attempt <= maxRetries then maxRetries - attempt + 1 else 0
  {
    if attempt <= maxRetries {
      var r := SendMessage(config, request, endpoint, attempt);
      if r.Failure? && attempt < maxRetries {
        NeverCancelledRun(config, request, endpoint, cancel, maxRetries, attempt + 1, Some(r.error));
      }
    }
  }

  /** A successful run returns a reply some attempt actually received. */
  lemma {:induction false} SuccessIsSomeReply(config: WebhookConfig, request: WebhookRequest, endpoint: Endpoint, cancel: nat -> Option<string>,
                                              maxRetries: int, attempt: nat, lastErr: Option<SendError>)
    requires attempt >= 1
    ensures var t := RetryFrom(config, request, endpoint, cancel, maxRetries, attempt, lastErr);
            t.result.Success? ==>
              exists a: nat :: attempt <= a <= maxRetries && a == attempt + t.sends - 1 &&
                               SendMessage(config, request, endpoint, a) == t.result
    decreases if attempt <= maxRetries then maxRetries - attempt + 1 else 0
  {
    if attempt <= maxRetries {
      var r := SendMessage(config, request, endpoint, attempt);
      if r.Failure? && attempt < maxRetries && cancel(attempt).None? {
        SuccessIsSomeReply(config, request, endpoint, cancel, maxRetries, attempt + 1, Some(r.error));
      }
    }
  }
}
