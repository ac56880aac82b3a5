/** The cache-through fetch of the exercise proxy: look the endpoint up in
    the process-wide cache, and on a miss call the exercise database and
    store what it returns. */
module CacheThrough {
  import opened Wrappers
  import opened JsValue

  const RapidApiUrl := "https://exercisedb.p.rapidapi.com"
  const RapidApiHost := "exercisedb.p.rapidapi.com"

  /** Every exercise entry in the shared cache is keyed under this prefix. */
  const KeyPrefix := "exercise_"

  /** What a failed upstream call exposes: the HTTP status of its response,
      the `message` field of its response body, and the error's own
      message, each of which may be missing. */
  datatype Failure = Failure(status: Option<int>, responseMessage: Option<Payload>, message: Option<string>)

  /** The outcome of one upstream call: its data, or the error it throws. */
  datatype Upstream = Ok(data: Payload) | Thrown(failure: Failure)

  /** The GET request the proxy sends upstream. */
  datatype Request = Request(url: string, headers: seq<(string, string)>)

  /** One cache-through fetch: its outcome, the cache afterwards, and the
      upstream request it made, if it made one. */
  datatype Fetch = Fetch(result: Upstream, store: map<string, Payload>, request: Option<Request>)

  function CacheKey(endpoint: string): string
  {
    KeyPrefix + endpoint
  }

  /** A lookup the fetch serves from the cache: the key is present and its
      value truthy. A falsy stored value counts as a miss. */
  predicate Hit(store: map<string, Payload>, key: string)
  {
    key in store && Truthy(store[key])
  }

  /** The upstream request for `endpoint`, carrying the configured key (or
      the empty string) and the provider's host name. */
  function UpstreamRequest(apiKey: Option<string>, endpoint: string): Request
  {
    Request(RapidApiUrl + endpoint,
            [("X-RapidAPI-Key", if Present(apiKey) then apiKey.value else ""),
             ("X-RapidAPI-Host", RapidApiHost)])
  }

  /** The fetch as a function of the cache before it and of what the
      upstream call would return. */
  function FetchSpec(store: map<string, Payload>, apiKey: Option<string>, endpoint: string, upstream: Upstream): Fetch
  {
    var key := CacheKey(endpoint);
    if Hit(store, key) then
      Fetch(Ok(store[key]), store, None)
    else
      var request := Some(UpstreamRequest(apiKey, endpoint));
      match upstream
      case Ok(data) => Fetch(Ok(data), store[key := data], request)
      case Thrown(f) => Fetch(Thrown(f), store, request)
  }

  /** The process-wide cache instance shared by every request. */
  class Cache {
    var entries: map<string, Payload>

    constructor ()
      ensures entries == map[]
    {
      entries := map[];
    }
  }

  /** Fetch `endpoint` through `cache`; `upstream` is what the upstream call
      returns or throws if it is made. */
  method FetchFromApi(cache: Cache, apiKey: Option<string>, endpoint: string, upstream: Upstream)
    returns (result: Upstream, request: Option<Request>)
    modifies cache
    ensures Fetch(result, cache.entries, request) == FetchSpec(old(cache.entries), apiKey, endpoint, upstream)
  {
    var key := CacheKey(endpoint);
    var cached := if key in cache.entries then Some(cache.entries[key]) else None;
    if cached.Some? && Truthy(cached.value) {
      return Ok(cached.value), None;
    }
    request := Some(UpstreamRequest(apiKey, endpoint));
    match upstream
    case Thrown(f) =>
      // the call throws before the cache is written
      result := Thrown(f);
    case Ok(data) =>
      cache.entries := cache.entries[key := data];
      result := Ok(data);
  }

  // ---------------------------------------------------------------------
  // Properties of the cache key
  // ---------------------------------------------------------------------

  /** Distinct endpoints have distinct cache keys. */
  lemma CacheKeyInjective(e1: string, e2: string)
    ensures CacheKey(e1) == CacheKey(e2) <==> e1 == e2
  {
    if CacheKey(e1) == CacheKey(e2) {
      assert e1 == CacheKey(e1)[|KeyPrefix|..];
      assert e2 == CacheKey(e2)[|KeyPrefix|..];
    }
  }

  // ---------------------------------------------------------------------
  // Properties of one fetch
  // ---------------------------------------------------------------------

  /** A hit returns the stored value, makes no upstream call and leaves the
      cache as it was. */
  lemma HitServedFromCache(store: map<string, Payload>, apiKey: Option<string>, endpoint: string, upstream: Upstream)
    requires Hit(store, CacheKey(endpoint))
    ensures FetchSpec(store, apiKey, endpoint, upstream) == Fetch(Ok(store[CacheKey(endpoint)]), store, None)
  {
  }

  /** Every miss, including a falsy stored value, calls upstream exactly at
      the endpoint under the provider's URL, and returns what upstream
      returns or throws. */
  lemma MissCallsUpstream(store: map<string, Payload>, apiKey: Option<string>, endpoint: string, upstream: Upstream)
    requires !Hit(store, CacheKey(endpoint))
    ensures var fetch := FetchSpec(store, apiKey, endpoint, upstream);
      && fetch.request == Some(UpstreamRequest(apiKey, endpoint))
      && fetch.result == upstream
  {
  }

  /** A miss answered by upstream stores the data under the endpoint's key
      and touches no other key. */
  lemma MissStoresData(store: map<string, Payload>, apiKey: Option<string>, endpoint: string, data: Payload)
    requires !Hit(store, CacheKey(endpoint))
    ensures var fetch := FetchSpec(store, apiKey, endpoint, Ok(data));
      && fetch.result == Ok(data)
      && CacheKey(endpoint) in fetch.store && fetch.store[CacheKey(endpoint)] == data
      && fetch.store.Keys == store.Keys + {CacheKey(endpoint)}
      && forall k :: k in store && k != CacheKey(endpoint) ==> fetch.store[k] == store[k]
  {
  }

  /** A failed upstream call leaves the cache untouched. */
  lemma FailureLeavesCache(store: map<string, Payload>, apiKey: Option<string>, endpoint: string, f: Failure)
    ensures FetchSpec(store, apiKey, endpoint, Thrown(f)).store == store
  {
  }

  /** Whatever happens, the fetch only ever writes the endpoint's own key:
      no entry is removed and every other entry keeps its value. */
  lemma FetchWritesOnlyItsKey(store: map<string, Payload>, apiKey: Option<string>, endpoint: string, upstream: Upstream)
    ensures var after := FetchSpec(store, apiKey, endpoint, upstream).store;
      && store.Keys <= after.Keys
      && after.Keys <= store.Keys + {CacheKey(endpoint)}
      && forall k :: k in store && k != CacheKey(endpoint) ==> after[k] == store[k]
  {
  }

  /** A fetch answers only with cached data or with what upstream returned. */
  lemma FetchDataOrigin(store: map<string, Payload>, apiKey: Option<string>, endpoint: string, upstream: Upstream)
    ensures var fetch := FetchSpec(store, apiKey, endpoint, upstream);
      fetch.result.Ok? ==>
        (fetch.request.None? && CacheKey(endpoint) in store && fetch.result.data == store[CacheKey(endpoint)]) ||
        (fetch.request.Some? && fetch.result == upstream)
  {
  }

  // ---------------------------------------------------------------------
  // Properties of a sequence of fetches
  // ---------------------------------------------------------------------

  /** Once a fetch has produced truthy data, the next fetch of the same
      endpoint is served from the cache with the same data, whatever
      upstream would now say, and changes nothing (expiry is not modelled). */
  lemma RepeatServedFromCache(store: map<string, Payload>, apiKey: Option<string>, endpoint: string,
                              first: Upstream, second: Upstream)
    requires FetchSpec(store, apiKey, endpoint, first).result.Ok?
    requires Truthy(FetchSpec(store, apiKey, endpoint, first).result.data)
    ensures var one := FetchSpec(store, apiKey, endpoint, first);
      FetchSpec(one.store, apiKey, endpoint, second) == Fetch(one.result, one.store, None)
  {
    var one := FetchSpec(store, apiKey, endpoint, first);
    var key := CacheKey(endpoint);
    assert key in one.store && one.store[key] == one.result.data;
    HitServedFromCache(one.store, apiKey, endpoint, second);
  }

  /** A falsy payload is stored but never served: the next fetch of the same
      endpoint calls upstream again. */
  lemma FalsyPayloadRefetched(store: map<string, Payload>, apiKey: Option<string>, endpoint: string,
                              data: Payload, second: Upstream)
    requires !Hit(store, CacheKey(endpoint))
    requires !Truthy(data)
    ensures var one := FetchSpec(store, apiKey, endpoint, Ok(data));
      FetchSpec(one.store, apiKey, endpoint, second).request == Some(UpstreamRequest(apiKey, endpoint))
  {
  }

  /** A fetch of one endpoint does not change what the cache holds for any
      other endpoint. */
  lemma FetchLeavesOtherEndpoints(store: map<string, Payload>, apiKey: Option<string>,
                                  endpoint: string, upstream: Upstream, other: string)
    requires other != endpoint
    ensures var after := FetchSpec(store, apiKey, endpoint, upstream).store;
      && (CacheKey(other) in after <==> CacheKey(other) in store)
      && (CacheKey(other) in store ==> after[CacheKey(other)] == store[CacheKey(other)])
  {
    CacheKeyInjective(endpoint, other);
    FetchWritesOnlyItsKey(store, apiKey, endpoint, upstream);
  }
}
