/**
 * The records the service stores and exchanges: messages, the scheduler's
 * status record, scheduler log entries, cached deliveries and the webhook's
 * request and response shapes.
 */
module Models {
  import opened Wrappers

  /** An instant, in nanoseconds since the Unix epoch. */
  type Time = nat

  /** A span of time in nanoseconds, as Go's `time.Duration`. */
  type Duration = int

  const Second: Duration := 1_000_000_000
  const Hour: Duration := 3600 * Second

  /** The three values a message's status can take. */
  datatype MessageStatus = Pending | Sent | Failed

  /** The string each status is stored as. */
  function StatusText(s: MessageStatus): (t: string)
  {
    match s
    case Pending => "pending"
    case Sent => "sent"
    case Failed => "failed"
  }

  /** Distinct statuses are stored as distinct strings, so the stored form decodes uniquely. */
  lemma StatusTextInjective(a: MessageStatus, b: MessageStatus)
    ensures StatusText(a) == StatusText(b) ==> a == b
  {
  }

  /** The most content a message may declare, by its `max=160` validation tag. */
  const ContentMaxLength: nat := 160

  /**
   * One stored message. `updatedAt` is the document's `updated_at` field: the
   * store writes it on every status update although the Go struct has no field
   * for it, so it is never read back.
   */
  datatype Message = Message(
    id: string,
    to: string,
    content: string,
    status: MessageStatus,
    createdAt: Time,
    sentAt: Option<Time>,
    messageId: Option<string>,
    retryCount: int,
    error: Option<string>,
    updatedAt: Option<Time>)

  /** A freshly created message, before the caller gives it an id. */
  function NewMessage(to: string, content: string, now: Time): (m: Message)
    ensures m.status == Pending && m.retryCount == 0
    ensures m.to == to && m.content == content && m.createdAt == now
    ensures m.sentAt.None? && m.messageId.None? && m.error.None? && m.updatedAt.None?
    ensures m.id == ""
  {
    Message("", to, content, Pending, now, None, None, 0, None, None)
  }

  /** The fixed id of the one scheduler status record. */
  const SchedulerStatusId: string := "scheduler_status"

  datatype SchedulerStatus = SchedulerStatus(
    id: string,
    isActive: bool,
    startedAt: Option<Time>,
    stoppedAt: Option<Time>,
    updatedAt: Time)

  /** The status record for a transition to active or inactive at `now`. */
  function NewSchedulerStatus(isActive: bool, now: Time): (s: SchedulerStatus)
    ensures s.id == SchedulerStatusId && s.isActive == isActive
    ensures s.startedAt.Some? != s.stoppedAt.Some?
    ensures s.startedAt.Some? <==> isActive
    ensures s.updatedAt == now
    ensures s.startedAt == Some(s.updatedAt) || s.stoppedAt == Some(s.updatedAt)
  {
    var base := SchedulerStatus(SchedulerStatusId, isActive, None, None, now);
    if isActive then base.(startedAt := Some(now)) else base.(stoppedAt := Some(now))
  }

  /** The reply to a lifecycle request that succeeded. */
  datatype SchedulerResponse = SchedulerResponse(
    isActive: bool,
    startedAt: Option<Time>,
    stoppedAt: Option<Time>,
    message: string)

  /** What the delivery cache holds for a delivered message. */
  datatype CachedMessage = CachedMessage(messageId: string, sentAt: Time)

  /** The payload sent to the delivery endpoint. */
  datatype WebhookRequest = WebhookRequest(to: string, content: string)

  /** The endpoint's acknowledgement. */
  datatype WebhookResponse = WebhookResponse(message: string, messageId: string)

  /** One page of sent messages, as the listing endpoint returns it. */
  datatype MessageListResponse = MessageListResponse(
    messages: seq<Message>,
    total: int,
    page: int,
    perPage: int,
    totalPages: int)

  /** The body of a message-creation request. */
  datatype CreateMessageRequest = CreateMessageRequest(to: string, content: string)

  /**
   * Scheduler log entries. Their Go definition is not part of this model; the
   * fields here are those the log operations use: an id, the action, the
   * timestamp the log is sorted by and, for a stop, the id of the start it ends.
   */
  datatype SchedulerAction = Start | Stop

  datatype SchedulerLog = SchedulerLog(
    id: string,
    action: SchedulerAction,
    timestamp: Time,
    startId: Option<string>)
}
