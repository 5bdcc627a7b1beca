/**
 * The message endpoints: creating a message (validated, given a fresh id and
 * stored) and listing sent messages a page at a time. The query parameters
 * of the listing are normalised so that the page is at least 1 and the page
 * size between 1 and 100; the JSON body binding, the struct validator and
 * the id generator are inputs.
 */
module MessageHandling {
  import opened Wrappers
  import opened Models
  import opened Text
  import opened DocumentQuery
  import Pagination
  import MessageOperations
  import DataOps

  const StatusOK: int := 200
  const StatusCreated: int := 201
  const StatusBadRequest: int := 400
  const StatusInternalServerError: int := 500

  const DefaultPage: string := "1"
  const DefaultPerPage: string := "10"
  const FallbackPerPage: int := 10
  const MaxPerPage: int := 100

  /** An endpoint's answer: a status code with a list, a created message, or an error and its details. */
  datatype Reply =
    | ListReply(code: int, list: MessageListResponse)
    | CreatedReply(code: int, message: Message)
    | ErrorReply(code: int, error: string, details: Option<string>)

  /** A query parameter as the framework hands it over: the default when the request does not carry it. */
  function QueryOrDefault(raw: Option<string>, default: string): (v: string)
    ensures raw.Some? ==> v == raw.value
    ensures raw.None? ==> v == default
  {
    if raw.Some? then raw.value else default
  }

  /** The requested page: a decimal integer of at least 1, otherwise the first page. */
  function NormalizePage(raw: Option<string>): (page: int)
    ensures page >= 1
    ensures var n := Atoi(QueryOrDefault(raw, DefaultPage)); n.Some? && n.value >= 1 ==> page == n.value
    ensures var n := Atoi(QueryOrDefault(raw, DefaultPage)); !(n.Some? && n.value >= 1) ==> page == 1
  {
    var n := Atoi(QueryOrDefault(raw, DefaultPage));
    if n.None? || n.value < 1 then 1 else n.value
  }

  /** The requested page size: a decimal integer from 1 to 100, otherwise 10. */
  function NormalizePerPage(raw: Option<string>): (perPage: int)
    ensures 1 <= perPage <= MaxPerPage
    ensures var n := Atoi(QueryOrDefault(raw, DefaultPerPage)); n.Some? && 1 <= n.value <= MaxPerPage ==> perPage == n.value
    ensures var n := Atoi(QueryOrDefault(raw, DefaultPerPage)); !(n.Some? && 1 <= n.value <= MaxPerPage) ==> perPage == FallbackPerPage
  {
    var n := Atoi(QueryOrDefault(raw, DefaultPerPage));
    if n.None? || n.value < 1 || n.value > MaxPerPage then FallbackPerPage else n.value
  }

  /** A page written out in decimal is the page listed; no page parameter is the first page. */
  lemma PageRoundTrip(page: nat)
    requires 1 <= page <= MaxInt64
    ensures NormalizePage(Some(DecimalString(page))) == page
    ensures NormalizePage(None) == 1
  {
    AtoiOfDecimal(page);
    AtoiOfDecimal(1);
    assert DecimalString(1) == DefaultPage;
  }

  /** A page size from 1 to 100 written out in decimal is the page size used; no parameter means 10. */
  lemma PerPageRoundTrip(perPage: nat)
    requires 1 <= perPage <= MaxPerPage
    ensures NormalizePerPage(Some(DecimalString(perPage))) == perPage
    ensures NormalizePerPage(None) == FallbackPerPage
  {
    AtoiOfDecimal(perPage);
    AtoiOfDecimal(10);
    assert DecimalString(10) == DefaultPerPage;
  }

  /** The number of sent messages before page `page` of `perPage` messages. */
  function Offset(page: int, perPage: int): (skip: nat)
    requires page >= 1 && perPage >= 1
    ensures skip == (page - 1) * perPage
    ensures page == 1 ==> skip == 0
  {
    (page - 1) * perPage
  }

  /**
   * What the sent-message listing answers for `store`: the normalised page
   * of sent messages (newest first), the number of sent messages and the page
   * count, or a 500 when the store fails.
   */
  function SentMessagesReply(store: seq<Message>, rawPage: Option<string>, rawPerPage: Option<string>,
                             countFault: Option<string>, queryFault: Option<string>): (reply: Reply)
    ensures reply.ErrorReply? <==> countFault.Some? || queryFault.Some?
    ensures reply.ErrorReply? ==>
              reply.code == StatusInternalServerError && reply.error == "Failed to retrieve messages" && reply.details.None?
    ensures reply.ListReply? ==>
              var page := NormalizePage(rawPage);
              var perPage := NormalizePerPage(rawPerPage);
              && reply.code == StatusOK
              && reply.list.page == page && reply.list.perPage == perPage
              && reply.list.total == |Select(store, MessageOperations.IsSent)|
              && reply.list.messages == MessageOperations.SentPage(store, Offset(page, perPage), perPage)
              && |reply.list.messages| <= perPage
              && reply.list.totalPages == Pagination.CeilDiv(reply.list.total, perPage)
  {
    var page := NormalizePage(rawPage);
    var perPage := NormalizePerPage(rawPerPage);
    var skip := Offset(page, perPage);
    var r := MessageOperations.GetSentMessages(store, page, perPage, countFault, queryFault);
    if r.Failure? then ErrorReply(StatusInternalServerError, "Failed to retrieve messages", None)
    else
      var total := r.value.1;
      assert r.value.0 == MessageOperations.SentPage(store, skip, perPage);
      ListReply(StatusOK, MessageListResponse(r.value.0, total, page, perPage, Pagination.CeilDiv(total, perPage)))
  }

  /** Every listed message is sent, and they come newest first. */
  lemma ListedMessagesAreSentNewestFirst(store: seq<Message>, rawPage: Option<string>, rawPerPage: Option<string>,
                                         countFault: Option<string>, queryFault: Option<string>)
    requires countFault.None? && queryFault.None?
    ensures var rows := SentMessagesReply(store, rawPage, rawPerPage, countFault, queryFault).list.messages;
            && (forall i :: 0 <= i < |rows| ==> rows[i].status == Sent)
            && (forall i, j :: 0 <= i < j < |rows| ==>
                  MessageOperations.SentAtKey(rows[i]) >= MessageOperations.SentAtKey(rows[j]))
  {
    var skip := Offset(NormalizePage(rawPage), NormalizePerPage(rawPerPage));
    MessageOperations.SentPageAllSent(store, skip, NormalizePerPage(rawPerPage));
    MessageOperations.SentPageNewestFirst(store, skip, NormalizePerPage(rawPerPage));
  }

  /** The page count of a listing is the least number of pages that holds every sent message. */
  lemma ListPagesCoverTotal(store: seq<Message>, rawPage: Option<string>, rawPerPage: Option<string>,
                            countFault: Option<string>, queryFault: Option<string>)
    requires countFault.None? && queryFault.None?
    ensures var list := SentMessagesReply(store, rawPage, rawPerPage, countFault, queryFault).list;
            Pagination.PagesCover(list.total, list.perPage, list.totalPages)
  {
    var list := SentMessagesReply(store, rawPage, rawPerPage, countFault, queryFault).list;
    var total: nat, perPage := |Select(store, MessageOperations.IsSent)|, NormalizePerPage(rawPerPage);
    assert list.total == total && list.perPage == perPage && list.totalPages == Pagination.CeilDiv(total, perPage);
    Pagination.PagesCoverTotal(total, perPage);
  }

  class MessageHandler {
    const dataOps: DataOps.DataOperations

    constructor(dataOps: DataOps.DataOperations)
      ensures this.dataOps == dataOps
    {
      this.dataOps := dataOps;
    }

    /**
     * `CreateMessage`: a body that does not bind or does not validate is a
     * 400 and stores nothing; otherwise a new pending message with the fresh
     * id is stored and returned with 201, or the store's failure is a 500.
     */
    method CreateMessage(bound: Result<CreateMessageRequest, string>, verdict: Option<string>,
                         freshId: string, now: Time, insertFault: Option<string>)
      returns (reply: Reply)
      requires dataOps.Valid()
      modifies dataOps
      ensures dataOps.Valid()
      ensures bound.Failure? ==>
                reply == ErrorReply(StatusBadRequest, "Invalid request body", Some(bound.error)) &&
                dataOps.messages == old(dataOps.messages)
      ensures bound.Success? && verdict.Some? ==>
                reply == ErrorReply(StatusBadRequest, "Validation failed", verdict) &&
                dataOps.messages == old(dataOps.messages)
      ensures bound.Success? && verdict.None? ==>
                var m := NewMessage(bound.value.to, bound.value.content, now).(id := freshId);
                var r := MessageOperations.InsertMessage(old(dataOps.messages), m, insertFault);
                && dataOps.messages == (if r.Success? then old(dataOps.messages) + [m] else old(dataOps.messages))
                && reply == (if r.Success? then CreatedReply(StatusCreated, m)
                             else ErrorReply(StatusInternalServerError, "Failed to create message", None))
      ensures dataOps.logs == old(dataOps.logs) && dataOps.cache == old(dataOps.cache)
    {
      if bound.Failure? {
        return ErrorReply(StatusBadRequest, "Invalid request body", Some(bound.error));
      }
      if verdict.Some? {
        return ErrorReply(StatusBadRequest, "Validation failed", verdict);
      }
      var message := NewMessage(bound.value.to, bound.value.content, now);
      message := message.(id := freshId);
      var err := dataOps.CreateMessage(message, insertFault);
      if err.Some? {
        return ErrorReply(StatusInternalServerError, "Failed to create message", None);
      }
      return CreatedReply(StatusCreated, message);
    }

    /** `GetSentMessages`: normalise the query parameters and list one page of sent messages. */
    method GetSentMessages(rawPage: Option<string>, rawPerPage: Option<string>,
                           countFault: Option<string>, queryFault: Option<string>)
      returns (reply: Reply)
      ensures reply == SentMessagesReply(dataOps.messages, rawPage, rawPerPage, countFault, queryFault)
    {
      var page := NormalizePage(rawPage);
      var perPage := NormalizePerPage(rawPerPage);
      var r := dataOps.GetSentMessages(page, perPage, countFault, queryFault);
      if r.Failure? {
        return ErrorReply(StatusInternalServerError, "Failed to retrieve messages", None);
      }
      var (messages, total) := r.value;
      var totalPages := Pagination.CeilDiv(total, perPage);
      return ListReply(StatusOK, MessageListResponse(messages, total, page, perPage, totalPages));
    }
  }
}
