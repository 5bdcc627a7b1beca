/**
 * The service's data layer: the message collection, the scheduler log and
 * the delivery cache, with the operations the handlers call on them. Each
 * store call that can fail takes a `fault` parameter: `Some(e)` is the store
 * reporting error `e`. Clock reads are the `now` parameters.
 */
module DataOps {
  import opened Wrappers
  import opened Models
  import opened DocumentQuery
  import MessageOperations
  import SchedulerOperations
  import CacheOperations

  class DataOperations {
    /** The configured `MaxRetryCount`. */
    const maxRetryCount: int
    /** The `messages` collection in natural order. */
    var messages: seq<Message>
    /** The `scheduler_logs` collection in natural order. */
    var logs: seq<SchedulerLog>
    /** The key-value store behind the delivery cache. */
    var cache: CacheOperations.Cache

    /** Every collection keeps its `_id`s unique. */
    ghost predicate Valid()
      reads this
    {
      && MessageOperations.UniqueIds(messages)
      && forall i, j :: 0 <= i < j < |logs| ==> logs[i].id != logs[j].id
    }

    constructor(maxRetryCount: int)
      ensures this.maxRetryCount == maxRetryCount
      ensures messages == [] && logs == [] && cache == map[]
      ensures Valid()
    {
      this.maxRetryCount := maxRetryCount;
      messages := [];
      logs := [];
      cache := map[];
    }

    /** `CreateMessage`: insert the record into the message collection. */
    method CreateMessage(message: Message, fault: Option<string>) returns (err: Option<string>)
      requires Valid()
      modifies this
      ensures Valid()
      ensures var r := MessageOperations.InsertMessage(old(messages), message, fault);
              && messages == (if r.Success? then r.value else old(messages))
              && err == (if r.Success? then None else Some(r.error))
      ensures logs == old(logs) && cache == old(cache)
    {
      var r := MessageOperations.InsertMessage(messages, message, fault);
      if r.Success? {
        messages := r.value;
        err := None;
      } else {
        err := Some(r.error);
      }
    }

    /** `GetPendingMessages(limit)`: the batch the scheduler works through next. */
    method GetPendingMessages(limit: int, fault: Option<string>) returns (r: Result<seq<Message>, string>)
      ensures fault.Some? ==> r == Failure(fault.value)
      ensures fault.None? ==> r == Success(MessageOperations.PendingBatch(messages, limit, maxRetryCount))
    {
      if fault.Some? {
        r := Failure(fault.value);
      } else {
        r := Success(MessageOperations.PendingBatch(messages, limit, maxRetryCount));
      }
    }

    /** `GetSentMessages(page, perPage)`: one page of sent messages and their total. */
    method GetSentMessages(page: int, perPage: int, countFault: Option<string>, queryFault: Option<string>)
      returns (r: Result<(seq<Message>, int), string>)
      ensures r == MessageOperations.GetSentMessages(messages, page, perPage, countFault, queryFault)
    {
      r := MessageOperations.GetSentMessages(messages, page, perPage, countFault, queryFault);
    }

    /**
     * `UpdateMessageStatus`: apply the update document to the record with the
     * given id. No record with that id is not an error; the collection stays as it was.
     */
    method UpdateMessageStatus(messageId: string, status: MessageStatus, webhookMessageId: Option<string>,
                               errorMsg: Option<string>, now: Time, fault: Option<string>)
      returns (err: Option<string>)
      requires Valid()
      modifies this
      ensures Valid()
      ensures err == fault
      ensures fault.Some? ==> messages == old(messages)
      ensures fault.None? ==>
                messages == MessageOperations.UpdateMessageStatus(old(messages), messageId, status,
                                                                  webhookMessageId, errorMsg, now)
      ensures logs == old(logs) && cache == old(cache)
    {
      err := fault;
      if fault.None? {
        MessageOperations.UpdateKeepsIdsUnique(messages, messageId, status, webhookMessageId, errorMsg, now);
        messages := MessageOperations.UpdateMessageStatus(messages, messageId, status,
                                                          webhookMessageId, errorMsg, now);
      }
    }

    /** `CacheMessage`: remember a delivery for a day. */
    method CacheMessage(messageId: string, sentAt: Time, now: Time, fault: Option<string>)
      returns (err: Option<string>)
      requires Valid()
      modifies this
      ensures Valid()
      ensures (cache, err) == CacheOperations.CacheMessage(old(cache), messageId, sentAt, now, fault)
      ensures messages == old(messages) && logs == old(logs)
    {
      var r := CacheOperations.CacheMessage(cache, messageId, sentAt, now, fault);
      cache := r.0;
      err := r.1;
    }

    /** `GetCachedMessage`: the cached delivery record, or the store's error. */
    method GetCachedMessage(messageId: string, now: Time, fault: Option<string>)
      returns (r: Result<CachedMessage, string>)
      ensures r == CacheOperations.GetCachedMessage(cache, messageId, now, fault)
    {
      r := CacheOperations.GetCachedMessage(cache, messageId, now, fault);
    }

    /** `IsCachedMessage`: whether a delivery record exists. */
    method IsCachedMessage(messageId: string, now: Time, fault: Option<string>)
      returns (cached: bool, err: Option<string>)
      ensures (cached, err) == CacheOperations.IsCachedMessage(cache, messageId, now, fault)
    {
      var r := CacheOperations.IsCachedMessage(cache, messageId, now, fault);
      cached, err := r.0, r.1;
    }

    /** Appends `entry` to the scheduler log unless the insert fails. */
    method AppendLog(entry: SchedulerLog, fault: Option<string>) returns (err: Option<string>)
      requires Valid()
      modifies this
      ensures Valid()
      ensures var r := SchedulerOperations.AppendLog(old(logs), entry, fault);
              && logs == (if r.Success? then r.value else old(logs))
              && err == (if r.Success? then None else Some(r.error))
      ensures messages == old(messages) && cache == old(cache)
    {
      var r := SchedulerOperations.AppendLog(logs, entry, fault);
      if r.Success? {
        forall i, j | 0 <= i < j < |r.value| ensures r.value[i].id != r.value[j].id {
          if j == |logs| { assert r.value[i] == logs[i]; }
          else { assert r.value[i] == logs[i] && r.value[j] == logs[j]; }
        }
        logs := r.value;
        err := None;
      } else {
        err := Some(r.error);
      }
    }

    /**
     * `CreateSchedulerStartLog`: append a start entry and return its id, which
     * is returned even when the insert fails. `newId` is the id the entry's
     * constructor would generate.
     */
    method CreateSchedulerStartLog(newId: string, now: Time, fault: Option<string>)
      returns (id: string, err: Option<string>)
      requires Valid()
      modifies this
      ensures Valid()
      ensures id == newId
      ensures var r := SchedulerOperations.AppendLog(old(logs), SchedulerOperations.StartLog(newId, now), fault);
              && logs == (if r.Success? then r.value else old(logs))
              && err == (if r.Success? then None else Some(r.error))
      ensures messages == old(messages) && cache == old(cache)
    {
      err := AppendLog(SchedulerOperations.StartLog(newId, now), fault);
      id := newId;
    }

    /** `CreateSchedulerStopLog(startId)`: append a stop entry naming the start it ends. */
    method CreateSchedulerStopLog(startId: string, newId: string, now: Time, fault: Option<string>)
      returns (err: Option<string>)
      requires Valid()
      modifies this
      ensures Valid()
      ensures var r := SchedulerOperations.AppendLog(old(logs), SchedulerOperations.StopLog(newId, startId, now), fault);
              && logs == (if r.Success? then r.value else old(logs))
              && err == (if r.Success? then None else Some(r.error))
      ensures messages == old(messages) && cache == old(cache)
    {
      err := AppendLog(SchedulerOperations.StopLog(newId, startId, now), fault);
    }

    /** `IsSchedulerActive`: whether the newest log entry is a start. */
    method IsSchedulerActive(fault: Option<string>) returns (active: bool, err: Option<string>)
      ensures (active, err) == SchedulerOperations.IsSchedulerActive(logs, fault)
    {
      var r := SchedulerOperations.IsSchedulerActive(logs, fault);
      active, err := r.0, r.1;
    }

    /** `StartScheduler`: the same as `CreateSchedulerStartLog`. */
    method StartScheduler(newId: string, now: Time, fault: Option<string>)
      returns (id: string, err: Option<string>)
      requires Valid()
      modifies this
      ensures Valid()
      ensures id == newId
      ensures var r := SchedulerOperations.AppendLog(old(logs), SchedulerOperations.StartLog(newId, now), fault);
              && logs == (if r.Success? then r.value else old(logs))
              && err == (if r.Success? then None else Some(r.error))
      ensures messages == old(messages) && cache == old(cache)
    {
      id, err := CreateSchedulerStartLog(newId, now, fault);
    }

    /** `StopScheduler(startId)`: the same as `CreateSchedulerStopLog`. */
    method StopScheduler(startId: string, newId: string, now: Time, fault: Option<string>)
      returns (err: Option<string>)
      requires Valid()
      modifies this
      ensures Valid()
      ensures var r := SchedulerOperations.AppendLog(old(logs), SchedulerOperations.StopLog(newId, startId, now), fault);
              && logs == (if r.Success? then r.value else old(logs))
              && err == (if r.Success? then None else Some(r.error))
      ensures messages == old(messages) && cache == old(cache)
    {
      err := CreateSchedulerStopLog(startId, newId, now, fault);
    }
  }
}
