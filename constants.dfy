/** The router's constants: the cache policies a route may declare in
    `cache_data`, and the outcome of racing a data load against the pending
    delay. */
module Constants {
  /** `cache_data`: `NO_CACHE` (False), `CACHE_FIRST` (True), `NETWORK_FIRST`,
      `STALE_WHILE_REVALIDATE`, or any other value a route sets, which the loader
      refuses once it meets it in the cache. */
  datatype CacheMode =
    | NoCache
    | CacheFirst
    | NetworkFirst
    | StaleWhileRevalidate
    | Unknown

  /** `Promise.race([data_promise, timeout(pending_delay)])`: either the
      `TIMEOUT` sentinel or the data promise's own value came first. */
  datatype RaceResult = Timeout | DataFirst
}
