/**
 * The current converter's on-disk page cache: one JSON file per channel
 * number and start time, read instead of the network when present and
 * written only for a page whose first element is a non-empty object.
 */
module Hdhr2IptvCache {
  import opened Wrappers
  import opened Hdhr

  /** A cache file: the channel number and the start time of the page. */
  type CacheKey = (string, int)

  /** `if channel_data:` - the first element exists and is not the empty object. */
  predicate Storable(r: Response) {
    First(r).Some? && First(r).value.Listing?
  }

  /** The page a cached request yields, the cache after it, and what went to the network. */
  datatype Lookup = Lookup(result: Result<Response>, entries: map<CacheKey, Response>, fetched: seq<Request>)

  /** get_cached_hdhr_channel_guide over a cache and a table of responses. */
  function CachedGuide(entries: map<CacheKey, Response>, pages: map<Request, Response>, auth: string, channel: string, start: int): (l: Lookup)
    // a hit returns the stored page and touches neither the network nor the cache
    ensures (channel, start) in entries ==>
      l.result == Ok(entries[(channel, start)]) && l.fetched == [] && l.entries == entries
    // a miss asks the network for exactly this page
    ensures (channel, start) !in entries ==>
      l.fetched == [Request(auth, channel, Some(start))] && l.result == Fetch(pages, Request(auth, channel, Some(start)))
    // stored pages are never changed
    ensures forall k :: k in entries ==> k in l.entries && l.entries[k] == entries[k]
    // the only new entry is this page, and only when it is storable
    ensures forall k :: k in l.entries && k !in entries ==>
      k == (channel, start) && l.result.Ok? && Storable(l.result.value) && l.entries[k] == l.result.value
    ensures (channel, start) !in entries && l.result.Ok? && Storable(l.result.value) ==> (channel, start) in l.entries
  {
    var key := (channel, start);
    if key in entries then Lookup(Ok(entries[key]), entries, [])
    else
      var req := Request(auth, channel, Some(start));
      var r := Fetch(pages, req);
      Lookup(r, if r.Ok? && Storable(r.value) then entries[key := r.value] else entries, [req])
  }

  /** The cache directory, as the map from cache key to the page stored under it. */
  class GuideCache {
    var entries: map<CacheKey, Response>

    constructor (entries: map<CacheKey, Response>)
      ensures this.entries == entries
    {
      this.entries := entries;
    }

    /** get_cached_hdhr_channel_guide: a stored page, else a fetched one, kept when storable. */
    method GetOrFetch(api: GuideApi, auth: string, channel: string, start: int) returns (r: Result<Response>)
      modifies this, api
      ensures var l := CachedGuide(old(entries), api.pages, auth, channel, start);
        r == l.result && entries == l.entries && api.log == old(api.log) + l.fetched
    {
      var key := (channel, start);
      if key in entries {
        return Ok(entries[key]);
      }
      r := api.Get(Request(auth, channel, Some(start)));
      if r.Ok? {
        var channelData := First(r.value);
        if channelData.Some? && channelData.value.Listing? {
          entries := entries[key := r.value];
        }
      }
    }
  }
}
