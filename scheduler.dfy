/**
 * The scheduler handler: a two-state machine (running or stopped) that, while
 * running, fetches a batch of pending messages on every tick and launches one
 * delivery job per message. Each job tries the webhook up to three times,
 * records the outcome on the message and, after a recorded success, caches
 * the delivery.
 *
 * Goroutines, the ticker and the job counter become explicit steps: `Tick`
 * is one firing of the ticker, `CompleteJob` is one job running to its end,
 * and stopping runs the remaining jobs to completion in launch order. What a
 * job meets in the world (the endpoint's replies, the store's faults and the
 * clock) is a `JobEnv`; the webhook's URL and auth key are the handler's
 * `webhook` configuration.
 */
module Scheduler {
  import opened Wrappers
  import opened Models
  import MessageOperations
  import CacheOperations
  import Webhook
  import opened DataOps

  /** The attempt budget every job gives the retry loop. */
  const RetryBudget: int := 3

  /** The jobs' context is never cancelled. */
  const NeverCancelled: nat -> Option<string> := a => None

  /**
   * What one job meets: the endpoint's reply per request and attempt, the
   * store's faults, the instant the outcome is recorded at, and the instant
   * the delivery is cached at.
   */
  datatype JobEnv = JobEnv(
    endpoint: Webhook.Endpoint,
    updateFault: Option<string>,
    cacheFault: Option<string>,
    now: Time,
    cacheNow: Time)

  /** A reply to a lifecycle request: the success body, or an HTTP status and error text. */
  datatype Reply = Ok(response: SchedulerResponse) | Rejected(code: int, error: string)

  /** The payload a job for `msg` sends: the message's recipient and content. */
  function Payload(msg: Message): (r: WebhookRequest)
    ensures r.to == msg.to && r.content == msg.content
  {
    WebhookRequest(msg.to, msg.content)
  }

  /** The run of the retry loop a job for `msg` makes. */
  function JobRun(config: Webhook.WebhookConfig, msg: Message, env: JobEnv): Webhook.RetryTrace
  {
    Webhook.Retry(config, Payload(msg), env.endpoint, NeverCancelled, RetryBudget)
  }

  /** The outcome of a job's delivery. */
  function Delivery(config: Webhook.WebhookConfig, msg: Message, env: JobEnv): Result<WebhookResponse, Webhook.SendError>
  {
    JobRun(config, msg, env).result
  }

  /**
   * Every request a job for `msg` sends is a `POST` to the configured URL
   * with the JSON content type, the configured auth key, and the message's
   * recipient and content as its payload.
   */
  lemma JobRequestsCarryMessage(config: Webhook.WebhookConfig, msg: Message, env: JobEnv)
    ensures var t := JobRun(config, msg, env);
            && |t.requests| == t.sends
            && forall i :: 0 <= i < |t.requests| ==>
                 && t.requests[i].payload == WebhookRequest(msg.to, msg.content)
                 && t.requests[i].httpMethod == "POST" && t.requests[i].url == config.url
                 && t.requests[i].headers.Keys == {"Content-Type", Webhook.AuthKeyHeader}
                 && t.requests[i].headers["Content-Type"] == "application/json"
                 && t.requests[i].headers[Webhook.AuthKeyHeader] == config.authKey
  {
    Webhook.RequestsAreBuilt(config, Payload(msg), env.endpoint, NeverCancelled, RetryBudget, 1, None);
  }

  /** The message collection after a job for `msg`: the outcome recorded, unless the update fails. */
  function JobMessages(config: Webhook.WebhookConfig, store: seq<Message>, msg: Message, env: JobEnv): seq<Message>
  {
    var d := Delivery(config, msg, env);
    if env.updateFault.Some? then store
    else if d.Failure? then
      MessageOperations.UpdateMessageStatus(store, msg.id, Failed, None, Some(Webhook.ErrorText(d.error)), env.now)
    else
      MessageOperations.UpdateMessageStatus(store, msg.id, Sent, Some(d.value.messageId), None, env.now)
  }

  /** The cache after a job: written, under the delivery's id, only once a success has been recorded. */
  function JobCache(config: Webhook.WebhookConfig, cache: CacheOperations.Cache, msg: Message, env: JobEnv)
    : CacheOperations.Cache
  {
    var d := Delivery(config, msg, env);
    if d.Failure? || env.updateFault.Some? then cache
    else CacheOperations.CacheMessage(cache, d.value.messageId, env.cacheNow, env.cacheNow, env.cacheFault).0
  }

  /** A failed delivery marks the message failed with the error's text and one more retry, and caches nothing. */
  lemma JobFailureMarksFailed(config: Webhook.WebhookConfig, store: seq<Message>, cache: CacheOperations.Cache,
                               msg: Message, env: JobEnv, i: int)
    requires Delivery(config, msg, env).Failure? && env.updateFault.None?
    requires 0 <= i < |store| && store[i].id == msg.id
    ensures var after := JobMessages(config, store, msg, env)[i];
            && after.status == Failed
            && after.retryCount == store[i].retryCount + 1
            && after.error == Some(Webhook.ErrorText(Delivery(config, msg, env).error))
            && after.error.value != ""
            && after.sentAt == store[i].sentAt && after.messageId == store[i].messageId
    ensures JobCache(config, cache, msg, env) == cache
  {
    DeliveryErrorIsNamed(config, msg, env);
    Webhook.ErrorTextNonEmpty(Delivery(config, msg, env).error);
  }

  /** A job's delivery never fails with a cancellation, so its error always has a text. */
  lemma DeliveryErrorIsNamed(config: Webhook.WebhookConfig, msg: Message, env: JobEnv)
    requires Delivery(config, msg, env).Failure?
    ensures !Delivery(config, msg, env).error.Cancelled?
  {
    Webhook.NeverCancelledRun(config, Payload(msg), env.endpoint, NeverCancelled, RetryBudget, 1, None);
  }

  /**
   * A successful delivery marks the message sent with the delivery's id and
   * time, and caches it under that id for a day; a cache fault leaves the
   * recorded outcome as it is.
   */
  lemma JobSuccessMarksSent(config: Webhook.WebhookConfig, store: seq<Message>, cache: CacheOperations.Cache,
                             msg: Message, env: JobEnv, i: int)
    requires Delivery(config, msg, env).Success? && env.updateFault.None?
    requires 0 <= i < |store| && store[i].id == msg.id
    ensures var after := JobMessages(config, store, msg, env)[i];
            && after.status == Sent
            && after.messageId == Some(Delivery(config, msg, env).value.messageId)
            && after.sentAt == Some(env.now)
            && after.retryCount == store[i].retryCount
            && after.error == store[i].error
    ensures env.cacheFault.None? ==>
              JobCache(config, cache, msg, env) ==
                CacheOperations.StoreEntry(cache, Delivery(config, msg, env).value.messageId, env.cacheNow, env.cacheNow)
    ensures env.cacheFault.Some? ==> JobCache(config, cache, msg, env) == cache
    ensures JobMessages(config, store, msg, env) == JobMessages(config, store, msg, env.(cacheFault := None))
  {
  }

  /** The cache changes only after a delivery succeeded and its record was updated. */
  lemma CacheOnlyAfterRecordedSuccess(config: Webhook.WebhookConfig, cache: CacheOperations.Cache, msg: Message, env: JobEnv)
    requires JobCache(config, cache, msg, env) != cache
    ensures Delivery(config, msg, env).Success? && env.updateFault.None? && env.cacheFault.None?
  {
  }

  /** A job sends to the endpoint at most three times and waits at most twice. */
  lemma JobAttemptBound(config: Webhook.WebhookConfig, msg: Message, env: JobEnv)
    ensures JobRun(config, msg, env).sends <= 3
    ensures |JobRun(config, msg, env).waits| <= 2
  {
    Webhook.RetryBounds(config, Payload(msg), env.endpoint, NeverCancelled, RetryBudget, 1, None);
  }

  /** One job run to its end, on both stores. */
  function RunJob(config: Webhook.WebhookConfig, s: (seq<Message>, CacheOperations.Cache), msg: Message, env: JobEnv)
    : (seq<Message>, CacheOperations.Cache)
  {
    (JobMessages(config, s.0, msg, env), JobCache(config, s.1, msg, env))
  }

  /** The jobs `jobs` run one after another, job `k + i` meeting `env(k + i)`. */
  function RunJobs(config: Webhook.WebhookConfig, s: (seq<Message>, CacheOperations.Cache), jobs: seq<Message>,
                   env: nat -> JobEnv, k: nat)
    : (seq<Message>, CacheOperations.Cache)
    decreases |jobs|
  {
    if jobs == [] then s else RunJobs(config, RunJob(config, s, jobs[0], env(k)), jobs[1..], env, k + 1)
  }

  /** Running jobs changes no record's id, so the collection keeps its ids. */
  lemma {:induction false} RunJobsKeepIds(config: Webhook.WebhookConfig, s: (seq<Message>, CacheOperations.Cache),
                                          jobs: seq<Message>, env: nat -> JobEnv, k: nat)
    ensures |RunJobs(config, s, jobs, env, k).0| == |s.0|
    ensures forall i :: 0 <= i < |s.0| ==> RunJobs(config, s, jobs, env, k).0[i].id == s.0[i].id
    decreases |jobs|
  {
    if jobs != [] {
      RunJobsKeepIds(config, RunJob(config, s, jobs[0], env(k)), jobs[1..], env, k + 1);
    }
  }

  class SchedulerHandler {
    const dataOps: DataOperations
    /** The webhook's URL and auth key, as the webhook handler holds them. */
    const webhook: Webhook.WebhookConfig
    /** The configured `MessagesPerInterval`: the batch size of one tick. */
    const messagesPerInterval: int
    var isRunning: bool
    /** A ticker exists and has not been stopped. */
    var tickerArmed: bool
    /** The current stop signal has been given. */
    var stopClosed: bool
    /** How many stop signals have been made; a new one is made on every start. */
    var stopEpoch: nat
    /** The jobs launched and not yet finished, in launch order. */
    var inFlight: seq<Message>
    /** The job counter. */
    var activeJobs: nat

    ghost predicate Valid()
      reads this, dataOps
    {
      && dataOps.Valid()
      && activeJobs == |inFlight|
      && tickerArmed == isRunning
      && (isRunning ==> !stopClosed)
      && (!isRunning ==> activeJobs == 0)
    }

    constructor(dataOps: DataOperations, webhook: Webhook.WebhookConfig, messagesPerInterval: int)
      requires dataOps.Valid()
      ensures Valid()
      ensures this.dataOps == dataOps && this.webhook == webhook && this.messagesPerInterval == messagesPerInterval
      ensures !isRunning && !tickerArmed && !stopClosed && stopEpoch == 1
      ensures inFlight == [] && activeJobs == 0
    {
      this.dataOps := dataOps;
      this.webhook := webhook;
      this.messagesPerInterval := messagesPerInterval;
      isRunning := false;
      tickerArmed := false;
      stopClosed := false;
      stopEpoch := 1;
      inFlight := [];
      activeJobs := 0;
    }

    /**
     * `StartScheduler`: refused while running; refused, with nothing changed,
     * when the active flag cannot be persisted; otherwise the loop starts.
     */
    method StartScheduler(persistFault: Option<string>, now: Time) returns (reply: Reply)
      requires Valid()
      modifies this
      ensures Valid()
      ensures old(isRunning) ==> reply == Rejected(400, "Scheduler is already running")
      ensures !old(isRunning) && persistFault.Some? ==> reply == Rejected(500, "Failed to start scheduler")
      ensures reply.Rejected? ==> unchanged(this)
      ensures !old(isRunning) && persistFault.None? ==>
                && reply == Ok(SchedulerResponse(true, Some(now), None, "Scheduler started successfully"))
                && isRunning && tickerArmed && !stopClosed
                && stopEpoch == old(stopEpoch) + 1
                && inFlight == old(inFlight) && activeJobs == old(activeJobs)
    {
      if isRunning {
        return Rejected(400, "Scheduler is already running");
      }
      if persistFault.Some? {
        return Rejected(500, "Failed to start scheduler");
      }
      StartLoop();
      reply := Ok(SchedulerResponse(true, Some(now), None, "Scheduler started successfully"));
    }

    /** `startScheduler`: mark running, make a fresh stop signal and arm the ticker. */
    method StartLoop()
      requires Valid() && !isRunning
      modifies this
      ensures Valid()
      ensures isRunning && tickerArmed && !stopClosed && stopEpoch == old(stopEpoch) + 1
      ensures inFlight == old(inFlight) && activeJobs == old(activeJobs)
    {
      isRunning := true;
      stopEpoch := stopEpoch + 1;
      stopClosed := false;
      tickerArmed := true;
    }

    /**
     * `StopScheduler`: refused while stopped; refused, with the scheduler still
     * running, when the inactive flag cannot be persisted; otherwise the loop
     * stops after the jobs in flight finish, job `i` meeting `env(i)`.
     */
    method StopScheduler(persistFault: Option<string>, env: nat -> JobEnv, now: Time) returns (reply: Reply)
      requires Valid()
      modifies this, dataOps
      ensures Valid()
      ensures !old(isRunning) ==> reply == Rejected(400, "Scheduler is not running")
      ensures old(isRunning) && persistFault.Some? ==> reply == Rejected(500, "Failed to stop scheduler")
      ensures reply.Rejected? ==> unchanged(this) && unchanged(dataOps)
      ensures old(isRunning) && persistFault.None? ==>
                && reply == Ok(SchedulerResponse(false, None, Some(now), "Scheduler stopped successfully"))
                && !isRunning && !tickerArmed && stopClosed && stopEpoch == old(stopEpoch)
                && inFlight == [] && activeJobs == 0
                && (dataOps.messages, dataOps.cache)
                   == RunJobs(webhook, (old(dataOps.messages), old(dataOps.cache)), old(inFlight), env, 0)
                && dataOps.logs == old(dataOps.logs)
    {
      if !isRunning {
        return Rejected(400, "Scheduler is not running");
      }
      if persistFault.Some? {
        return Rejected(500, "Failed to stop scheduler");
      }
      StopLoop(env);
      reply := Ok(SchedulerResponse(false, None, Some(now), "Scheduler stopped successfully"));
    }

    /**
     * `stopScheduler`: disarm the ticker, give the stop signal, wait for the
     * job counter to reach zero, and only then mark the scheduler stopped.
     */
    method StopLoop(env: nat -> JobEnv)
      requires Valid() && isRunning
      modifies this, dataOps
      ensures Valid()
      ensures !isRunning && !tickerArmed && stopClosed && stopEpoch == old(stopEpoch)
      ensures inFlight == [] && activeJobs == 0
      ensures (dataOps.messages, dataOps.cache)
              == RunJobs(webhook, (old(dataOps.messages), old(dataOps.cache)), old(inFlight), env, 0)
      ensures dataOps.logs == old(dataOps.logs)
    {
      tickerArmed := false;
      stopClosed := true;
      var done: nat := 0;
      while activeJobs > 0
        invariant dataOps.Valid() && activeJobs == |inFlight|
        invariant isRunning && !tickerArmed && stopClosed && stopEpoch == old(stopEpoch)
        invariant RunJobs(webhook, (dataOps.messages, dataOps.cache), inFlight, env, done)
                  == RunJobs(webhook, (old(dataOps.messages), old(dataOps.cache)), old(inFlight), env, 0)
        invariant dataOps.logs == old(dataOps.logs)
        decreases activeJobs
      {
        ghost var pending := inFlight;
        CompleteJob(0, env(done));
        assert inFlight == pending[1..];
        done := done + 1;
      }
      isRunning := false;
    }

    /** One firing of the ticker: process a batch if the ticker is armed, otherwise nothing. */
    method Tick(fetchFault: Option<string>)
      requires Valid()
      modifies this
      ensures Valid()
      ensures !old(tickerArmed) ==> unchanged(this)
      ensures old(tickerArmed) ==> Launched(old(inFlight), fetchFault)
      ensures isRunning == old(isRunning) && tickerArmed == old(tickerArmed)
      ensures stopClosed == old(stopClosed) && stopEpoch == old(stopEpoch)
    {
      if tickerArmed {
        ProcessMessages(fetchFault);
      }
    }

    /** The jobs after a tick that found `before` in flight: the fetched batch is added, one job per message. */
    ghost predicate Launched(before: seq<Message>, fetchFault: Option<string>)
      reads this, dataOps
    {
      && activeJobs == |inFlight|
      && (fetchFault.Some? ==> inFlight == before)
      && (fetchFault.None? ==>
            inFlight == before + MessageOperations.PendingBatch(dataOps.messages, messagesPerInterval,
                                                                dataOps.maxRetryCount))
    }

    /**
     * `processMessages`: fetch up to `messagesPerInterval` pending messages;
     * on a failed fetch or an empty batch do nothing, otherwise add one job per message.
     */
    method ProcessMessages(fetchFault: Option<string>)
      requires Valid() && isRunning
      modifies this
      ensures Valid()
      ensures Launched(old(inFlight), fetchFault)
      ensures messagesPerInterval > 0 ==> activeJobs <= old(activeJobs) + messagesPerInterval
      ensures isRunning && tickerArmed == old(tickerArmed)
      ensures stopClosed == old(stopClosed) && stopEpoch == old(stopEpoch)
    {
      var fetched := dataOps.GetPendingMessages(messagesPerInterval, fetchFault);
      if fetched.Failure? {
        return;
      }
      var batch := fetched.value;
      if |batch| == 0 {
        return;
      }
      LaunchJobs(batch);
    }

    /** The launch loop of `processMessages`: one job, and one count on the counter, per message. */
    method LaunchJobs(batch: seq<Message>)
      modifies this
      ensures inFlight == old(inFlight) + batch && activeJobs == old(activeJobs) + |batch|
      ensures isRunning == old(isRunning) && tickerArmed == old(tickerArmed)
      ensures stopClosed == old(stopClosed) && stopEpoch == old(stopEpoch)
    {
      for i := 0 to |batch|
        invariant inFlight == old(inFlight) + batch[..i]
        invariant activeJobs == old(activeJobs) + i
        invariant isRunning == old(isRunning) && tickerArmed == old(tickerArmed)
        invariant stopClosed == old(stopClosed) && stopEpoch == old(stopEpoch)
      {
        activeJobs := activeJobs + 1;
        inFlight := inFlight + [batch[i]];
      }
      assert batch[..|batch|] == batch;
    }

    /** Job `k` of those in flight runs to its end and leaves the counter. */
    method CompleteJob(k: nat, env: JobEnv)
      requires Valid() || (dataOps.Valid() && activeJobs == |inFlight|)
      requires k < |inFlight|
      modifies this, dataOps
      ensures dataOps.Valid() && activeJobs == |inFlight|
      ensures old(Valid()) ==> Valid()
      ensures inFlight == old(inFlight[..k] + inFlight[k + 1..]) && activeJobs == old(activeJobs) - 1
      ensures (dataOps.messages, dataOps.cache) == RunJob(webhook, (old(dataOps.messages), old(dataOps.cache)), old(inFlight[k]), env)
      ensures dataOps.logs == old(dataOps.logs)
      ensures isRunning == old(isRunning) && tickerArmed == old(tickerArmed)
      ensures stopClosed == old(stopClosed) && stopEpoch == old(stopEpoch)
    {
      var _ := ProcessSingleMessage(inFlight[k], env);
      inFlight := inFlight[..k] + inFlight[k + 1..];
      activeJobs := activeJobs - 1;
    }

    /**
     * `processSingleMessage`: deliver the message's recipient and content with
     * a budget of three attempts; on failure record `failed` with the error's
     * text; on success record `sent` with the delivery's id and, if that was
     * recorded, cache the delivery. `requests` are the requests the job sent.
     */
    method ProcessSingleMessage(msg: Message, env: JobEnv) returns (requests: seq<Webhook.HttpRequest>)
      requires dataOps.Valid()
      modifies dataOps
      ensures dataOps.Valid()
      ensures requests == JobRun(webhook, msg, env).requests
      ensures forall i :: 0 <= i < |requests| ==>
                requests[i] == Webhook.BuildRequest(webhook, WebhookRequest(msg.to, msg.content))
      ensures dataOps.messages == JobMessages(webhook, old(dataOps.messages), msg, env)
      ensures dataOps.cache == JobCache(webhook, old(dataOps.cache), msg, env)
      ensures dataOps.logs == old(dataOps.logs)
    {
      var webhookRequest := WebhookRequest(msg.to, msg.content);
      var response, sends, waits;
      response, sends, waits, requests :=
        Webhook.SendMessageWithRetry(webhook, webhookRequest, env.endpoint, NeverCancelled, RetryBudget);
      Webhook.RequestsAreBuilt(webhook, webhookRequest, env.endpoint, NeverCancelled, RetryBudget, 1, None);
      if response.Failure? {
        var errorMsg := Webhook.ErrorText(response.error);
        var _ := dataOps.UpdateMessageStatus(msg.id, Failed, None, Some(errorMsg), env.now, env.updateFault);
        return;
      }
      var err := dataOps.UpdateMessageStatus(msg.id, Sent, Some(response.value.messageId), None,
                                             env.now, env.updateFault);
      if err.Some? {
        return;
      }
      var _ := dataOps.CacheMessage(response.value.messageId, env.cacheNow, env.cacheNow, env.cacheFault);
    }
  }
}
