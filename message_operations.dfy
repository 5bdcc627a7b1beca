/**
 * The message collection's queries and updates: selecting the pending batch,
 * the status-update rule, the page of sent messages, and insertion. The
 * collection is a sequence of records in natural order; `fault` parameters
 * stand for the store call reporting an error.
 */
module MessageOperations {
  import opened Wrappers
  import opened Models
  import opened DocumentQuery

  /** A message the scheduler may pick up: still pending and under the retry ceiling. */
  predicate Eligible(m: Message, maxRetryCount: int)
  {
    m.status == Pending && m.retryCount < maxRetryCount
  }

  function EligibleUnder(maxRetryCount: int): Message -> bool
  {
    m => Eligible(m, maxRetryCount)
  }

  function CreatedAtKey(m: Message): int { m.createdAt }

  /** Eligible messages, oldest first, in natural order among equal creation times. */
  function PendingOrder(store: seq<Message>, maxRetryCount: int): seq<Message>
  {
    SortAsc(Select(store, EligibleUnder(maxRetryCount)), CreatedAtKey)
  }

  /** `GetPendingMessages`: the first `limit` eligible messages by creation time. */
  function PendingBatch(store: seq<Message>, limit: int, maxRetryCount: int): (batch: seq<Message>)
    ensures forall i :: 0 <= i < |batch| ==>
              batch[i].status == Pending && batch[i].retryCount < maxRetryCount
    ensures forall i, j :: 0 <= i < j < |batch| ==> batch[i].createdAt <= batch[j].createdAt
    ensures limit > 0 ==> |batch| <= limit
    ensures multiset(batch) <= multiset(store)
    ensures limit == 0 ==> |batch| == |Select(store, EligibleUnder(maxRetryCount))|
    ensures limit != 0 ==> |batch| == Min(|Select(store, EligibleUnder(maxRetryCount))|, Abs(limit))
  {
    LimitedOrder(store, limit, maxRetryCount);
    ApplyLimit(PendingOrder(store, maxRetryCount), limit)
  }

  /** A prefix of the pending order keeps its eligibility, its order and its provenance. */
  lemma LimitedOrder(store: seq<Message>, limit: int, maxRetryCount: int)
    ensures var batch := ApplyLimit(PendingOrder(store, maxRetryCount), limit);
            && (forall i :: 0 <= i < |batch| ==> batch[i].status == Pending && batch[i].retryCount < maxRetryCount)
            && (forall i, j :: 0 <= i < j < |batch| ==> batch[i].createdAt <= batch[j].createdAt)
            && multiset(batch) <= multiset(store)
  {
    var order := PendingOrder(store, maxRetryCount);
    PendingOrderEligible(store, maxRetryCount);
    var batch := ApplyLimit(order, limit);
    assert batch == order[..|batch|];
    forall i | 0 <= i < |batch| ensures batch[i].status == Pending && batch[i].retryCount < maxRetryCount {
      assert batch[i] == order[i];
      assert Eligible(order[i], maxRetryCount);
    }
    forall i, j | 0 <= i < j < |batch| ensures batch[i].createdAt <= batch[j].createdAt {
      assert batch[i] == order[i] && batch[j] == order[j];
      assert CreatedAtKey(order[i]) <= CreatedAtKey(order[j]);
    }
    assert multiset(batch) <= multiset(order);
  }

  /** The pending order holds only eligible messages, each taken from the collection. */
  lemma PendingOrderEligible(store: seq<Message>, maxRetryCount: int)
    ensures forall i :: 0 <= i < |PendingOrder(store, maxRetryCount)| ==>
              Eligible(PendingOrder(store, maxRetryCount)[i], maxRetryCount)
    ensures multiset(PendingOrder(store, maxRetryCount)) <= multiset(store)
  {
    SelectSubset(store, EligibleUnder(maxRetryCount));
    var order := PendingOrder(store, maxRetryCount);
    forall i | 0 <= i < |order| ensures Eligible(order[i], maxRetryCount) {
      assert order[i] in multiset(order);
      assert order[i] in Select(store, EligibleUnder(maxRetryCount));
    }
  }

  /** Eligible messages created at the same instant are fetched in their natural order. */
  lemma PendingOrderStable(store: seq<Message>, maxRetryCount: int, t: int)
    ensures Select(PendingOrder(store, maxRetryCount), KeyIs(CreatedAtKey, t)) ==
            Select(Select(store, EligibleUnder(maxRetryCount)), KeyIs(CreatedAtKey, t))
  {
    SortAscStable(Select(store, EligibleUnder(maxRetryCount)), CreatedAtKey, t);
  }

  /** The batch takes the oldest: every eligible message it leaves out is no older than any it takes. */
  lemma PendingBatchOldestFirst(store: seq<Message>, limit: int, maxRetryCount: int)
    ensures var batch := PendingBatch(store, limit, maxRetryCount);
            forall i, j ::
              (0 <= i < |batch| && 0 <= j < |store| &&
               Eligible(store[j], maxRetryCount) && store[j] !in batch) ==>
                batch[i].createdAt <= store[j].createdAt
  {
    SelectMembers(store, EligibleUnder(maxRetryCount));
    var order := PendingOrder(store, maxRetryCount);
    var batch := PendingBatch(store, limit, maxRetryCount);
    forall i, j | 0 <= i < |batch| && 0 <= j < |store| &&
        Eligible(store[j], maxRetryCount) && store[j] !in batch
      ensures batch[i].createdAt <= store[j].createdAt
    {
      assert EligibleUnder(maxRetryCount)(store[j]);
      assert store[j] in multiset(order);
      var k :| 0 <= k < |order| && order[k] == store[j];
      assert limit != 0;
      var n := Min(|order|, Abs(limit));
      assert batch == order[..n];
      assert k >= n;
      assert batch[i] == order[i];
      assert CreatedAtKey(order[i]) <= CreatedAtKey(order[k]);
    }
  }

  /** When the limit does not bind, every eligible message is in the batch. */
  lemma PendingBatchComplete(store: seq<Message>, limit: int, maxRetryCount: int)
    requires limit == 0 || |Select(store, EligibleUnder(maxRetryCount))| <= Abs(limit)
    ensures forall j :: 0 <= j < |store| && Eligible(store[j], maxRetryCount) ==>
              store[j] in PendingBatch(store, limit, maxRetryCount)
  {
    SelectMembers(store, EligibleUnder(maxRetryCount));
    var order := PendingOrder(store, maxRetryCount);
    assert ApplyLimit(order, limit) == order;
    forall j | 0 <= j < |store| && Eligible(store[j], maxRetryCount)
      ensures store[j] in PendingBatch(store, limit, maxRetryCount)
    {
      assert EligibleUnder(maxRetryCount)(store[j]);
      assert store[j] in multiset(order);
    }
  }

  /** The fields an `UpdateMessageStatus` call writes: its `$set` and `$inc` parts. */
  datatype StatusUpdate = StatusUpdate(
    status: MessageStatus,
    updatedAt: Time,
    sentAt: Option<Time>,
    messageId: Option<string>,
    error: Option<string>,
    retryIncrement: nat)

  /**
   * The update document: status and update time always; sent time and
   * delivery id only for `sent` with an id; for `failed` a retry increment of
   * one and the error when one is given. Both clock reads are the instant `now`.
   */
  function BuildStatusUpdate(status: MessageStatus, webhookMessageId: Option<string>,
                             errorMsg: Option<string>, now: Time): StatusUpdate
  {
    var sentFields := status == Sent && webhookMessageId.Some?;
    StatusUpdate(
      status,
      now,
      if sentFields then Some(now) else None,
      if sentFields then webhookMessageId else None,
      if status == Failed then errorMsg else None,
      if status == Failed then 1 else 0)
  }

  /** The store applying an update document to one record. */
  function ApplyUpdate(m: Message, u: StatusUpdate): Message
  {
    m.(status := u.status,
       updatedAt := Some(u.updatedAt),
       sentAt := if u.sentAt.Some? then u.sentAt else m.sentAt,
       messageId := if u.messageId.Some? then u.messageId else m.messageId,
       error := if u.error.Some? then u.error else m.error,
       retryCount := m.retryCount + u.retryIncrement)
  }

  /** A record after a status update, field by field. */
  function UpdatedRecord(m: Message, status: MessageStatus, webhookMessageId: Option<string>,
                         errorMsg: Option<string>, now: Time): (r: Message)
    ensures r.status == status && r.updatedAt == Some(now)
    ensures r.id == m.id && r.to == m.to && r.content == m.content && r.createdAt == m.createdAt
    ensures status == Sent && webhookMessageId.Some? ==>
              r.sentAt == Some(now) && r.messageId == webhookMessageId
    ensures !(status == Sent && webhookMessageId.Some?) ==>
              r.sentAt == m.sentAt && r.messageId == m.messageId
    ensures r.retryCount == if status == Failed then m.retryCount + 1 else m.retryCount
    ensures r.error == if status == Failed && errorMsg.Some? then errorMsg else m.error
  {
    ApplyUpdate(m, BuildStatusUpdate(status, webhookMessageId, errorMsg, now))
  }

  /** The collection after `UpdateMessageStatus(id, ...)` succeeds: the record with that id is updated. */
  function UpdateMessageStatus(store: seq<Message>, id: string, status: MessageStatus,
                               webhookMessageId: Option<string>, errorMsg: Option<string>,
                               now: Time): (r: seq<Message>)
    ensures |r| == |store|
    ensures forall i :: 0 <= i < |store| ==> r[i].id == store[i].id
    ensures forall i :: 0 <= i < |store| && store[i].id != id ==> r[i] == store[i]
    ensures forall i :: 0 <= i < |store| && store[i].id == id ==>
              r[i] == UpdatedRecord(store[i], status, webhookMessageId, errorMsg, now)
  {
    seq(|store|, i requires 0 <= i < |store| =>
      if store[i].id == id then UpdatedRecord(store[i], status, webhookMessageId, errorMsg, now)
      else store[i])
  }

  /** A message marked failed leaves the queue: no later batch contains it. */
  lemma FailedMessageLeavesQueue(store: seq<Message>, id: string, errorMsg: Option<string>, now: Time,
                                 limit: int, maxRetryCount: int)
    ensures var after := UpdateMessageStatus(store, id, Failed, None, errorMsg, now);
            forall m :: m in PendingBatch(after, limit, maxRetryCount) ==> m.id != id
  {
    var after := UpdateMessageStatus(store, id, Failed, None, errorMsg, now);
    var batch := PendingBatch(after, limit, maxRetryCount);
    forall m | m in batch ensures m.id != id {
      assert m in multiset(after);
      var k :| 0 <= k < |after| && after[k] == m;
      assert m.status == Pending;
    }
  }

  predicate IsSent(m: Message) { m.status == Sent }

  /** The sort key for `sent_at`: a missing time sorts below every present one. */
  function SentAtKey(m: Message): int
  {
    match m.sentAt
    case None => -1
    case Some(t) => t
  }

  /** Sent messages, most recently sent first. */
  function SentOrder(store: seq<Message>): seq<Message>
  {
    SortDesc(Select(store, IsSent), SentAtKey)
  }

  lemma SentOrderAllSent(store: seq<Message>)
    ensures forall i :: 0 <= i < |SentOrder(store)| ==> SentOrder(store)[i].status == Sent
  {
    var all := SentOrder(store);
    forall i | 0 <= i < |all| ensures all[i].status == Sent {
      assert all[i] in multiset(all);
      assert all[i] in Select(store, IsSent);
    }
  }

  /** One page of `SentOrder`: skip `skip` records, then keep at most `perPage` (none kept back when 0). */
  function SentPage(store: seq<Message>, skip: nat, perPage: int): (rows: seq<Message>)
    ensures perPage > 0 ==> |rows| <= perPage
    ensures perPage != 0 ==> |rows| <= Abs(perPage)
    ensures var all := SentOrder(store);
            var from := Min(|all|, skip);
            rows == all[from..if perPage == 0 then |all| else Min(|all|, from + Abs(perPage))]
  {
    Window(SentOrder(store), skip, perPage)
  }

  /** Every row of a page is a sent message. */
  lemma SentPageAllSent(store: seq<Message>, skip: nat, perPage: int)
    ensures var rows := SentPage(store, skip, perPage);
            forall i :: 0 <= i < |rows| ==> rows[i].status == Sent
  {
    var all := SentOrder(store);
    var from := Min(|all|, skip);
    var to := if perPage == 0 then |all| else Min(|all|, from + Abs(perPage));
    SentOrderAllSent(store);
    SliceAllSent(all, from, to);
    assert SentPage(store, skip, perPage) == all[from..to];
  }

  /** A slice of sent messages holds sent messages only. */
  lemma SliceAllSent(s: seq<Message>, from: nat, to: nat)
    requires from <= to <= |s|
    requires forall i :: 0 <= i < |s| ==> s[i].status == Sent
    ensures forall i :: 0 <= i < to - from ==> s[from..to][i].status == Sent
  {
    forall i | 0 <= i < to - from ensures s[from..to][i].status == Sent {
      assert s[from..to][i] == s[from + i];
    }
  }

  /** A page runs newest first. */
  lemma SentPageNewestFirst(store: seq<Message>, skip: nat, perPage: int)
    ensures SortedDesc(SentPage(store, skip, perPage), SentAtKey)
  {
    var all := SentOrder(store);
    var from := Min(|all|, skip);
    var to := if perPage == 0 then |all| else Min(|all|, from + Abs(perPage));
    SortedDescSlice(all, SentAtKey, from, to);
  }

  /**
   * `GetSentMessages(page, perPage)`: count the sent messages, then fetch one
   * page of them newest first. A failed count returns its error and the page
   * query is not made.
   */
  function GetSentMessages(store: seq<Message>, page: int, perPage: int,
                           countFault: Option<string>, queryFault: Option<string>)
    : (r: Result<(seq<Message>, int), string>)
    ensures countFault.Some? ==> r == Failure(countFault.value)
    ensures countFault.None? && (page - 1) * perPage < 0 ==> r == Failure(NegativeSkip)
    ensures countFault.None? && (page - 1) * perPage >= 0 && queryFault.Some? ==> r == Failure(queryFault.value)
    ensures r.Success? ==> r.value.1 == |Select(store, IsSent)|
    ensures r.Success? ==> (page - 1) * perPage >= 0 && r.value.0 == SentPage(store, (page - 1) * perPage, perPage)
    ensures r.Success? <==> countFault.None? && queryFault.None? && (page - 1) * perPage >= 0
  {
    if countFault.Some? then Failure(countFault.value)
    else
      var total := |Select(store, IsSent)|;
      var skip := (page - 1) * perPage;
      if skip < 0 then Failure(NegativeSkip)
      else if queryFault.Some? then Failure(queryFault.value)
      else Success((SentPage(store, skip, perPage), total))
  }

  predicate UniqueIds(store: seq<Message>)
  {
    forall i, j :: 0 <= i < j < |store| ==> store[i].id != store[j].id
  }

  function IdOf(m: Message): string { m.id }

  /** `CreateMessage`: insert one record; the store refuses an id it already holds. */
  function InsertMessage(store: seq<Message>, m: Message, fault: Option<string>)
    : (r: Result<seq<Message>, string>)
    ensures r.Success? <==> fault.None? && forall i :: 0 <= i < |store| ==> store[i].id != m.id
    ensures r.Success? ==> r.value == store + [m]
    ensures r.Failure? ==> r.error == if fault.Some? then fault.value else DuplicateKey
    ensures r.Success? && UniqueIds(store) ==> UniqueIds(r.value)
  {
    InsertOne(store, m, IdOf, fault)
  }

  /** A status update keeps every id in place, so unique ids stay unique. */
  lemma UpdateKeepsIdsUnique(store: seq<Message>, id: string, status: MessageStatus,
                             webhookMessageId: Option<string>, errorMsg: Option<string>, now: Time)
    requires UniqueIds(store)
    ensures UniqueIds(UpdateMessageStatus(store, id, status, webhookMessageId, errorMsg, now))
  {
  }

  /** A new message is eligible for the next batch whenever retries are allowed at all. */
  lemma NewMessageIsEligible(to: string, content: string, now: Time, maxRetryCount: int)
    requires maxRetryCount > 0
    ensures Eligible(NewMessage(to, content, now), maxRetryCount)
  {
  }
}
