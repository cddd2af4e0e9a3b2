/** The open-channel directory client: a 30-minute in-memory cache of the
    channel list, refreshed from the network when stale and served stale when
    the network fails. The clock (`Date.now()`, read once before and once after
    the fetch) and the fetch outcome are parameters. */
module ReiService {
  import opened Common
  import opened Types

  /** `1000 * 60 * 30` milliseconds. */
  const Ttl: nat := 1800000

  /** The parsed response body: a JSON array of channels, or any other value. */
  datatype Payload = ChannelArray(items: seq<Channel>) | NotArray

  /** The two fields of the service: `cache` (`None` for `null`) and `lastFetch`. */
  datatype CacheState = CacheState(cache: Option<seq<Channel>>, lastFetch: int)

  /** What one `getChannels` call does: the list it resolves with, whether it
      went to the network, and the fields afterwards. */
  datatype Served = Served(channels: seq<Channel>, fetched: bool, after: CacheState)

  const Initial := CacheState(None, 0)

  /** The cache is served without a fetch: a cache exists (an empty list counts)
      and it is younger than the TTL. */
  predicate IsFresh(s: CacheState, now: int) {
    s.cache.Some? && now - s.lastFetch < Ttl
  }

  /** `getChannels()` at clock `now`, with `response` the outcome of the fetch
      (`Fail` for a network error or a non-ok status) and `doneAt` the clock
      when it completed. */
  function GetChannelsSpec(s: CacheState, now: int, response: Fetch<Payload>, doneAt: int): (r: Served)
    ensures r.fetched <==> !IsFresh(s, now)
    ensures !r.fetched ==> r.after == s && r.channels == s.cache.value
    ensures r.fetched && response.Fail? ==>
              r.after == s && r.channels == (if s.cache.Some? then s.cache.value else [])
    ensures r.fetched && response.Ok? ==>
              r.after.cache == Some(r.channels) && r.after.lastFetch == doneAt
              && r.channels == (if response.data.ChannelArray? then response.data.items else [])
  {
    if IsFresh(s, now) then Served(s.cache.value, false, s)
    else match response
      case Ok(payload) =>
        var list := if payload.ChannelArray? then payload.items else [];
        Served(list, true, CacheState(Some(list), doneAt))
      case Fail =>
        Served(if s.cache.Some? then s.cache.value else [], true, s)
  }

  /** The comparison is strict: a cache exactly `Ttl` old is refetched. */
  lemma ExactTtlIsExpired(s: CacheState, response: Fetch<Payload>, doneAt: int)
    requires s.cache.Some?
    ensures GetChannelsSpec(s, s.lastFetch + Ttl, response, doneAt).fetched
    ensures GetChannelsSpec(s, s.lastFetch + Ttl - 1, response, doneAt).channels == s.cache.value
  {
  }

  /** After a successful fetch completing at `doneAt`, every call in
      `[doneAt, doneAt + Ttl)` is served the same list from memory, whatever
      the network would have answered. */
  lemma SuccessServesUntilExpiry(s: CacheState, now: int, payload: Payload, doneAt: int,
                                 later: int, response2: Fetch<Payload>, doneAt2: int)
    requires doneAt <= later < doneAt + Ttl
    ensures var first := GetChannelsSpec(s, now, Ok(payload), doneAt);
            var second := GetChannelsSpec(first.after, later, response2, doneAt2);
            first.fetched ==> !second.fetched && second.channels == first.channels && second.after == first.after
  {
  }

  /** A failed refresh changes neither field, so a stale list keeps being
      served and every later call retries the network until one succeeds. */
  lemma FailureKeepsStaleCache(s: CacheState, now: int, doneAt: int, later: int, response2: Fetch<Payload>, doneAt2: int)
    requires !IsFresh(s, now) && later >= now
    ensures var first := GetChannelsSpec(s, now, Fail, doneAt);
            first.after == s
            && first.channels == (if s.cache.Some? then s.cache.value else [])
            && GetChannelsSpec(first.after, later, response2, doneAt2).fetched
  {
  }

  /** Only `null` counts as missing: a cached empty list is served without a fetch. */
  lemma EmptyListIsACache(lastFetch: int, now: int, response: Fetch<Payload>, doneAt: int)
    requires now - lastFetch < Ttl
    ensures GetChannelsSpec(CacheState(Some([]), lastFetch), now, response, doneAt) ==
            Served([], false, CacheState(Some([]), lastFetch))
  {
  }

  /** The first call always goes to the network, and with no earlier success a
      failure yields the empty list. */
  lemma FirstCallFetches(now: int, doneAt: int)
    ensures GetChannelsSpec(Initial, now, Fail, doneAt) == Served([], true, Initial)
  {
  }

  /** The shared `reiService` object. */
  class ReiCache {
    var cache: Option<seq<Channel>>
    var lastFetch: int

    function State(): CacheState
      reads this
    {
      CacheState(cache, lastFetch)
    }

    constructor ()
      ensures State() == Initial
    {
      cache := None;
      lastFetch := 0;
    }

    /** `getChannels()`; it always resolves, never rejects. */
    method GetChannels(now: int, response: Fetch<Payload>, doneAt: int)
      returns (channels: seq<Channel>, fetched: bool)
      modifies this
      ensures Served(channels, fetched, State()) == GetChannelsSpec(old(State()), now, response, doneAt)
    {
      if cache.Some? && now - lastFetch < Ttl {
        return cache.value, false;
      }
      fetched := true;
      match response {
        case Ok(payload) =>
          cache := Some(if payload.ChannelArray? then payload.items else []);
          lastFetch := doneAt;
          channels := cache.value;
        case Fail =>
          channels := if cache.Some? then cache.value else [];
      }
    }
  }
}
