/**
  The cache-aside fetch of internal/pokeapi: ListLocations (locations.go)
  and ListExplore (explore.go), which share one hit/miss/store protocol.

  The network is an oracle value `NetResult` saying how request
  construction, the transport and the body read turned out; the JSON
  decoder is a function parameter `decode` (deterministic, otherwise
  uninterpreted). Only the response fields the command layer uses are kept.
 */
module PokeApi {
  import opened Wrappers
  import opened PokeCache

  /** The endpoint NewClient installs. */
  const BaseURL: string := "https://pokeapi.co/api/v2"

  datatype NamedResource = NamedResource(Name: string, URL: string)

  /** One page of the location-area listing, with its pagination cursors. */
  datatype RespShallowLocations = RespShallowLocations(
    Count: int,
    Next: Option<string>,
    Previous: Option<string>,
    Results: seq<NamedResource>)

  /** Go's zero value `RespShallowLocations{}`. */
  const ZeroLocations := RespShallowLocations(0, None, None, [])

  /** The parts of a location-area detail record the explore command prints. */
  datatype RespLocationsDetail = RespLocationsDetail(
    ID: int,
    Name: string,
    PokemonEncounters: seq<NamedResource>)

  /** Go's zero value `RespLocationsDetail{}`. */
  const ZeroDetail := RespLocationsDetail(0, "", [])

  /** What one network round trip produced: a failure of http.NewRequest,
      of httpClient.Do or of io.ReadAll, or the body bytes. The HTTP status
      code is never inspected, so an error status is just another body. */
  datatype NetResult = RequestFailed | TransportFailed | ReadFailed | Body(data: seq<byte>)

  datatype FetchError = RequestError | TransportError | ReadError | DecodeError

  /** The outcome of one fetch: the response (the zero value on error), the
      error, the URL for which the network path was taken if it was (a
      failing http.NewRequest takes that path but sends nothing), and the
      bytes stored in the cache if any. */
  datatype Fetch<T> = Fetch(resp: T, err: Option<FetchError>, request: Option<string>, store: Option<seq<byte>>)

  /** The request URL of ListLocations: the first listing page, or the
      page cursor it was given. */
  function LocationsURL(base: string, pageURL: Option<string>): (url: string)
  {
    match pageURL
    case None => base + "/location-area"
    case Some(u) => u
  }

  /** The request URL of ListExplore for one area. */
  function ExploreURL(base: string, area: string): (url: string)
  {
    base + "/location-area" + "/" + area
  }

  /** True when the cache holds bytes under `url` that decode. */
  predicate DecodableHit<T>(entries: map<string, CacheEntry>, url: string, decode: seq<byte> -> Option<T>)
  {
    url in entries && decode(entries[url].val).Some?
  }

  /** The cache-aside protocol: serve a hit whose bytes decode; otherwise
      (a miss, or a hit that fails to decode) go to the network, and on a
      body that decodes store the raw body under `url`. */
  function Protocol<T>(entries: map<string, CacheEntry>, url: string, decode: seq<byte> -> Option<T>,
                       zero: T, net: NetResult): (f: Fetch<T>)
    // a decodable hit is served from the cache with no request and no store
    ensures DecodableHit(entries, url, decode) ==>
      f.err == None && f.request == None && f.store == None &&
      Some(f.resp) == decode(entries[url].val)
    // anything else takes the network path for exactly `url`
    ensures !DecodableHit(entries, url, decode) ==> f.request == Some(url)
    // every error returns the zero response and stores nothing
    ensures f.err.Some? ==> f.resp == zero && f.store == None && f.request == Some(url)
    // a successful network fetch stores the raw body, which decodes to the response
    ensures f.request.Some? && f.err == None ==>
      net.Body? && f.store == Some(net.data) && decode(net.data) == Some(f.resp)
    // a store happens only after a successful fetch
    ensures f.store.Some? ==> f.err == None && f.request.Some?
    // a miss (or undecodable hit) whose body decodes succeeds: it returns
    // the decoded value and stores the raw body under `url`
    ensures !DecodableHit(entries, url, decode) && net.Body? && decode(net.data).Some? ==>
      f == Fetch(decode(net.data).value, None, Some(url), Some(net.data))
    // so the fetch fails exactly when it is not served from the cache and
    // the network gives no body that decodes
    ensures f.err.Some? <==> !DecodableHit(entries, url, decode) && !(net.Body? && decode(net.data).Some?)
  {
    if DecodableHit(entries, url, decode) then
      Fetch(decode(entries[url].val).value, None, None, None)
    else
      match net
      case RequestFailed => Fetch(zero, Some(RequestError), Some(url), None)
      case TransportFailed => Fetch(zero, Some(TransportError), Some(url), None)
      case ReadFailed => Fetch(zero, Some(ReadError), Some(url), None)
      case Body(dat) =>
        match decode(dat)
        case None => Fetch(zero, Some(DecodeError), Some(url), None)
        case Some(v) => Fetch(v, None, Some(url), Some(dat))
  }

  /** The cache contents after a fetch that stored `store` under `url` at `now`. */
  function Stored(entries: map<string, CacheEntry>, url: string, store: Option<seq<byte>>, now: int): (after: map<string, CacheEntry>)
  {
    match store
    case None => entries
    case Some(dat) => entries[url := CacheEntry(now, dat)]
  }

  /** The API client: a base endpoint and the cache it owns. */
  class Client {
    const baseURL: string
    const cache: Cache

    /** NewClient without the HTTP timeout: the fixed endpoint and a fresh,
        empty cache with the given sweep interval. */
    constructor (cacheInterval: int)
      ensures baseURL == BaseURL
      ensures fresh(cache) && cache.entries == map[] && cache.interval == cacheInterval
    {
      baseURL := BaseURL;
      cache := new Cache(cacheInterval);
    }

    /** The shared body of ListLocations and ListExplore after the URL is
        chosen. `now` is the time the cache's Add would read. */
    method FetchThroughCache<T>(url: string, decode: seq<byte> -> Option<T>, zero: T, net: NetResult, now: int)
      returns (resp: T, err: Option<FetchError>, request: Option<string>)
      modifies cache
      ensures var f := Protocol(old(cache.entries), url, decode, zero, net);
        && resp == f.resp && err == f.err && request == f.request
        && cache.entries == Stored(old(cache.entries), url, f.store, now)
    {
      var cachedData, found := cache.Get(url);
      if found {
        var decoded := decode(cachedData);
        if decoded.Some? {
          return decoded.value, None, None;
        }
      }
      request := Some(url);
      match net {
        case RequestFailed =>
          return zero, Some(RequestError), request;
        case TransportFailed =>
          return zero, Some(TransportError), request;
        case ReadFailed =>
          return zero, Some(ReadError), request;
        case Body(dat) =>
          var decoded := decode(dat);
          if decoded.None? {
            return zero, Some(DecodeError), request;
          }
          cache.Add(url, dat, now);
          return decoded.value, None, request;
      }
    }

    /** ListLocations: fetch the listing page `pageURL` (the first page when None). */
    method ListLocations(pageURL: Option<string>, decode: seq<byte> -> Option<RespShallowLocations>,
                         net: NetResult, now: int)
      returns (resp: RespShallowLocations, err: Option<FetchError>, request: Option<string>)
      modifies cache
      ensures var url := LocationsURL(baseURL, pageURL);
        var f := Protocol(old(cache.entries), url, decode, ZeroLocations, net);
        && resp == f.resp && err == f.err && request == f.request
        && cache.entries == Stored(old(cache.entries), url, f.store, now)
    {
      var url := LocationsURL(baseURL, pageURL);
      resp, err, request := FetchThroughCache(url, decode, ZeroLocations, net, now);
    }

    /** ListExplore: fetch the detail record of location area `area`. */
    method ListExplore(area: string, decode: seq<byte> -> Option<RespLocationsDetail>,
                       net: NetResult, now: int)
      returns (resp: RespLocationsDetail, err: Option<FetchError>, request: Option<string>)
      modifies cache
      ensures var url := ExploreURL(baseURL, area);
        var f := Protocol(old(cache.entries), url, decode, ZeroDetail, net);
        && resp == f.resp && err == f.err && request == f.request
        && cache.entries == Stored(old(cache.entries), url, f.store, now)
    {
      var url := ExploreURL(baseURL, area);
      resp, err, request := FetchThroughCache(url, decode, ZeroDetail, net, now);
    }
  }

  /** A call that succeeded is answered from the cache the next time the
      same URL is asked for, with the same response and no request,
      whatever the network would have said. */
  lemma RepeatIsServedFromCache<T>(entries: map<string, CacheEntry>, url: string, decode: seq<byte> -> Option<T>,
                                   zero: T, net: NetResult, net2: NetResult, now: int)
    requires Protocol(entries, url, decode, zero, net).err == None
    ensures var f := Protocol(entries, url, decode, zero, net);
      Protocol(Stored(entries, url, f.store, now), url, decode, zero, net2) == Fetch(f.resp, None, None, None)
  {
  }

  /** Pagination: after fetching page `url1` and then any page `url2`,
      requesting `url1` again is answered from the cache with the first
      response (so the cursors come back too) and no request. Whether `mapb`
      requests `url1` depends on the server's `Previous` link being exactly
      that string. */
  lemma BackNavigationHitsCache<T>(entries: map<string, CacheEntry>, url1: string, url2: string,
                                   decode: seq<byte> -> Option<T>, zero: T,
                                   net1: NetResult, net2: NetResult, net3: NetResult, t1: int, t2: int)
    requires Protocol(entries, url1, decode, zero, net1).err == None
    ensures var f1 := Protocol(entries, url1, decode, zero, net1);
      var e1 := Stored(entries, url1, f1.store, t1);
      var f2 := Protocol(e1, url2, decode, zero, net2);
      var e2 := Stored(e1, url2, f2.store, t2);
      Protocol(e2, url1, decode, zero, net3) == Fetch(f1.resp, None, None, None)
  {
  }

  /** A hit that does not decode is treated as a miss: the outcome is the
      one an empty cache would give. */
  lemma CorruptHitFallsThrough<T>(entries: map<string, CacheEntry>, url: string, decode: seq<byte> -> Option<T>,
                                  zero: T, net: NetResult)
    requires url in entries && decode(entries[url].val).None?
    ensures Protocol(entries, url, decode, zero, net) == Protocol(map[], url, decode, zero, net)
  {
  }

  /** A server error with an empty body is reported as an error, raised by
      the decoder (the status code is never looked at), and caches nothing. */
  lemma EmptyErrorBodyFails<T>(entries: map<string, CacheEntry>, url: string, decode: seq<byte> -> Option<T>, zero: T)
    requires !DecodableHit(entries, url, decode) && decode([]) == None
    ensures Protocol(entries, url, decode, zero, Body([])) == Fetch(zero, Some(DecodeError), Some(url), None)
  {
  }

  /** Distinct areas use distinct cache keys. */
  lemma {:induction false} ExploreURLInjective(base: string, a1: string, a2: string)
    requires ExploreURL(base, a1) == ExploreURL(base, a2)
    ensures a1 == a2
  {
    var p := base + "/location-area" + "/";
    assert ExploreURL(base, a1) == p + a1 && ExploreURL(base, a2) == p + a2;
    assert a1 == (p + a1)[|p|..];
    assert a2 == (p + a2)[|p|..];
  }

  /** No area's detail record shares a cache key with the first listing page. */
  lemma ExploreURLIsNotFirstPage(base: string, area: string)
    ensures ExploreURL(base, area) != LocationsURL(base, None)
  {
    assert |ExploreURL(base, area)| > |LocationsURL(base, None)|;
  }
}
