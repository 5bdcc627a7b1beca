/**
 * The delivery cache: one entry per delivered message under the key
 * `"message_sent:" + id`, holding the delivery id and time, kept for 24
 * hours. The key-value store is a map from key to entry and its expiry
 * instant; `fault` parameters stand for the store call reporting an error.
 */
module CacheOperations {
  import opened Wrappers
  import opened Models

  const KeyPrefix: string := "message_sent:"

  /** How long an entry lives. */
  const CacheTTL: Duration := 24 * Hour

  /** The error the key-value store answers a read of a missing key with. */
  const NilReply: string := "redis: nil"

  /** The key all three cache operations use for a message id. */
  function CacheKey(messageId: string): (key: string)
    ensures |key| == |KeyPrefix| + |messageId|
    ensures key[..|KeyPrefix|] == KeyPrefix && key[|KeyPrefix|..] == messageId
  {
    KeyPrefix + messageId
  }

  /** The message id a key belongs to, when it is a cache key at all. */
  function IdOfKey(key: string): (id: Option<string>)
    ensures id.Some? <==> |key| >= |KeyPrefix| && key[..|KeyPrefix|] == KeyPrefix
  {
    if |key| >= |KeyPrefix| && key[..|KeyPrefix|] == KeyPrefix then Some(key[|KeyPrefix|..]) else None
  }

  /** Every id can be read back from its key. */
  lemma IdOfCacheKey(messageId: string)
    ensures IdOfKey(CacheKey(messageId)) == Some(messageId)
  {
  }

  /** Every cache key is the key of the id it names. */
  lemma CacheKeyOfId(key: string)
    requires IdOfKey(key).Some?
    ensures CacheKey(IdOfKey(key).value) == key
  {
    assert key == key[..|KeyPrefix|] + key[|KeyPrefix|..];
  }

  /** Distinct ids never share a key. */
  lemma CacheKeyInjective(a: string, b: string)
    ensures CacheKey(a) == CacheKey(b) ==> a == b
  {
    if CacheKey(a) == CacheKey(b) {
      IdOfCacheKey(a);
      IdOfCacheKey(b);
    }
  }

  datatype CacheEntry = CacheEntry(value: CachedMessage, expiresAt: Time)

  type Cache = map<string, CacheEntry>

  /** The key is present and has not expired at `now`. */
  predicate Live(cache: Cache, key: string, now: Time)
  {
    key in cache && now < cache[key].expiresAt
  }

  /** `CacheMessage` when the write succeeds: the record under the id's key, expiring a day after `now`. */
  function StoreEntry(cache: Cache, messageId: string, sentAt: Time, now: Time): (r: Cache)
    ensures r.Keys == cache.Keys + {CacheKey(messageId)}
    ensures r[CacheKey(messageId)] == CacheEntry(CachedMessage(messageId, sentAt), now + CacheTTL)
    ensures forall k :: k in cache && k != CacheKey(messageId) ==> r[k] == cache[k]
  {
    cache[CacheKey(messageId) := CacheEntry(CachedMessage(messageId, sentAt), now + CacheTTL)]
  }

  /** `CacheMessage`: the cache after the write, unchanged when the write fails, and the error. */
  function CacheMessage(cache: Cache, messageId: string, sentAt: Time, now: Time, fault: Option<string>)
    : (r: (Cache, Option<string>))
    ensures r.1 == fault
    ensures fault.Some? ==> r.0 == cache
    ensures fault.None? ==> r.0 == StoreEntry(cache, messageId, sentAt, now)
  {
    if fault.Some? then (cache, fault) else (StoreEntry(cache, messageId, sentAt, now), None)
  }

  /** `GetCachedMessage`: the live record under the id's key, `redis: nil` when there is none. */
  function GetCachedMessage(cache: Cache, messageId: string, now: Time, fault: Option<string>)
    : (r: Result<CachedMessage, string>)
    ensures fault.Some? ==> r == Failure(fault.value)
    ensures r.Success? <==> fault.None? && Live(cache, CacheKey(messageId), now)
    ensures r.Success? ==> r.value == cache[CacheKey(messageId)].value
    ensures fault.None? && !Live(cache, CacheKey(messageId), now) ==> r == Failure(NilReply)
  {
    var key := CacheKey(messageId);
    if fault.Some? then Failure(fault.value)
    else if Live(cache, key, now) then Success(cache[key].value)
    else Failure(NilReply)
  }

  /** `IsCachedMessage`: whether the id's key is live; false along with the error when the call fails. */
  function IsCachedMessage(cache: Cache, messageId: string, now: Time, fault: Option<string>)
    : (r: (bool, Option<string>))
    ensures r.1 == fault
    ensures r.0 <==> fault.None? && Live(cache, CacheKey(messageId), now)
  {
    (fault.None? && Live(cache, CacheKey(messageId), now), fault)
  }

  /** Within a day of caching a delivery, reading it back gives the record that was cached. */
  lemma CachedThenRead(cache: Cache, messageId: string, sentAt: Time, now: Time, later: Time)
    requires now <= later < now + CacheTTL
    ensures var after := StoreEntry(cache, messageId, sentAt, now);
            GetCachedMessage(after, messageId, later, None) == Success(CachedMessage(messageId, sentAt))
            && IsCachedMessage(after, messageId, later, None) == (true, None)
  {
  }

  /** A day or more after caching, the entry is gone. */
  lemma CachedEntryExpires(cache: Cache, messageId: string, sentAt: Time, now: Time, later: Time)
    requires later >= now + CacheTTL
    ensures var after := StoreEntry(cache, messageId, sentAt, now);
            GetCachedMessage(after, messageId, later, None) == Failure(NilReply)
            && IsCachedMessage(after, messageId, later, None) == (false, None)
  {
  }

  /** Caching one message changes nothing that can be read for another. */
  lemma CachingIsolated(cache: Cache, messageId: string, sentAt: Time, now: Time,
                        other: string, at: Time, fault: Option<string>)
    requires other != messageId
    ensures var after := StoreEntry(cache, messageId, sentAt, now);
            GetCachedMessage(after, other, at, fault) == GetCachedMessage(cache, other, at, fault)
            && IsCachedMessage(after, other, at, fault) == IsCachedMessage(cache, other, at, fault)
  {
    CacheKeyInjective(messageId, other);
  }
}
