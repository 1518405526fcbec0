/** `CachedData`: one entry of the data cache, with the integer clock `now`
    (seconds) standing in for `datetime.now()`. */
module CachedEntries {
  import opened Values
  import opened Constants
  import opened Routing

  datatype CachedData = CachedData(
    data: Value,
    location: Location,
    mode: CacheMode,
    gcTime: int,
    fetchedAt: int,
    stale: bool)

  /** `CachedData(data=..., location=..., mode=..., gc_time=...)` built at time `now`. */
  function NewCachedData(data: Value, location: Location, mode: CacheMode, gcTime: int, now: int): (r: CachedData)
    ensures r.data == data && r.location == location && r.mode == mode && r.gcTime == gcTime
    ensures r.fetchedAt == now && !r.stale
  {
    CachedData(data, location, mode, gcTime, now, false)
  }

  /** `_should_gc()`: strictly older than its `gc_time`. */
  predicate ShouldGc(entry: CachedData, now: int) {
    now - entry.fetchedAt > entry.gcTime
  }

  /** An entry exactly `gc_time` old survives; one second later it is collected. */
  lemma ShouldGcAtTtl(entry: CachedData)
    ensures !ShouldGc(entry, entry.fetchedAt + entry.gcTime)
    ensures ShouldGc(entry, entry.fetchedAt + entry.gcTime + 1)
  {
  }

  /** Once eligible for collection, an entry stays eligible as time goes on. */
  lemma ShouldGcMonotone(entry: CachedData, t1: int, t2: int)
    requires t1 <= t2 && ShouldGc(entry, t1)
    ensures ShouldGc(entry, t2)
  {
  }

  /** `__deserialize__`: every serialised field restored, then `fetched_at` reset to `now`. */
  function Deserialized(fields: CachedData, now: int): (r: CachedData)
    ensures r.fetchedAt == now
    ensures r.data == fields.data && r.location == fields.location && r.mode == fields.mode
    ensures r.gcTime == fields.gcTime && r.stale == fields.stale
  {
    fields.(fetchedAt := now)
  }

  /** An entry that arrives with the startup data is not collected at once
      (its clock restarts), whatever its age on the server. */
  lemma DeserializedNotCollected(fields: CachedData, now: int)
    requires fields.gcTime >= 0
    ensures !ShouldGc(Deserialized(fields, now), now)
  {
  }

  /** A fresh entry is as young as an entry can be: a new entry and a deserialised
      one made at the same time are collected at the same times. */
  lemma NewAndDeserializedAgree(fields: CachedData, now: int, later: int)
    ensures var made := NewCachedData(fields.data, fields.location, fields.mode, fields.gcTime, now);
      ShouldGc(made, later) <==> ShouldGc(Deserialized(fields, now), later)
  {
  }
}
