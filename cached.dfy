/** The three process-wide stores: mounted forms kept for reuse, cached data, and
    the loads in flight, each keyed by a match's cache key. One `Stores` object is
    shared by the loader and the router client, so clearing it is seen by both. */
module Cached {
  import opened CachedEntries
  import opened Routing

  class Stores {
    var cachedForms: map<string, FormRef>
    var cachedData: map<string, CachedData>
    var inFlight: map<string, Handle>

    /** All three start empty. */
    constructor ()
      ensures cachedForms == map[] && cachedData == map[] && inFlight == map[]
    {
      cachedForms := map[];
      cachedData := map[];
      inFlight := map[];
    }

    /** `clear_cache()`: empties all three in place; the state after does not
        depend on the state before, so clearing twice is clearing once. */
    method ClearCache()
      modifies this
      ensures cachedForms == map[] && cachedData == map[] && inFlight == map[]
    {
      cachedForms := map[];
      cachedData := map[];
      inFlight := map[];
    }
  }
}
