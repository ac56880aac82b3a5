/** The GET handler of the exercise proxy: the configuration check, endpoint
    resolution, the cache-through fetch, and the mapping of a thrown upstream
    error to an error response. */
module ExerciseHandler {
  import opened Wrappers
  import opened JsValue
  import opened Endpoint
  import opened CacheThrough

  const MissingKeyMessage := "API key not configured"
  const DefaultErrorMessage := "Failed to fetch exercises"

  /** The cross-origin headers of a successful response. */
  const SuccessHeaders: seq<(string, string)> :=
    [("Access-Control-Allow-Origin", "*"),
     ("Access-Control-Allow-Methods", "GET"),
     ("Access-Control-Allow-Headers", "Content-Type, Authorization")]

  /** The one cross-origin header of an upstream-error response. */
  const ErrorHeaders: seq<(string, string)> := [("Access-Control-Allow-Origin", "*")]

  datatype Response = Response(status: int, body: Payload, headers: seq<(string, string)>)

  /** One GET request: the response, the cache afterwards, and the upstream
      request made, if any. */
  datatype Outcome = Outcome(response: Response, store: map<string, Payload>, request: Option<Request>)

  /** The status of an upstream-error response: the upstream status unless it
      is missing or 0, else 500. */
  function ErrorStatus(f: Failure): (status: int)
    ensures status != 0
    ensures status == 500 || f.status == Some(status)
    ensures f.status.Some? && f.status.value != 0 ==> status == f.status.value
  {
    if f.status.Some? && f.status.value != 0 then f.status.value else 500
  }

  /** The message of an upstream-error response: the first truthy one of the
      upstream body's `message`, the error's own message and the fixed
      fallback. */
  function ErrorMessage(f: Failure): (message: Payload)
    ensures Truthy(message)
    ensures f.responseMessage.Some? && Truthy(f.responseMessage.value) ==> message == f.responseMessage.value
    ensures !(f.responseMessage.Some? && Truthy(f.responseMessage.value)) && Present(f.message)
      ==> message == JStr(f.message.value)
    ensures !(f.responseMessage.Some? && Truthy(f.responseMessage.value)) && !Present(f.message)
      ==> message == JStr(DefaultErrorMessage)
  {
    if f.responseMessage.Some? && Truthy(f.responseMessage.value) then f.responseMessage.value
    else if Present(f.message) then JStr(f.message.value)
    else JStr(DefaultErrorMessage)
  }

  /** The GET handler as a function of the configured key, the query values,
      the cache before the request and what upstream would return. */
  function GetSpec(store: map<string, Payload>, apiKey: Option<string>, typ: Option<string>, param: Option<string>,
                   upstream: Upstream): Outcome
  {
    if !Present(apiKey) then
      Outcome(Response(500, ErrorBody(JStr(MissingKeyMessage)), []), store, None)
    else
      var fetch := FetchSpec(store, apiKey, ResolveEndpoint(typ, param), upstream);
      match fetch.result
      case Ok(data) => Outcome(Response(200, data, SuccessHeaders), fetch.store, fetch.request)
      case Thrown(f) => Outcome(Response(ErrorStatus(f), ErrorBody(ErrorMessage(f)), ErrorHeaders), fetch.store, fetch.request)
  }

  /** Handle one GET request against the shared `cache`; `apiKey` is the
      configured provider key and `upstream` what the upstream call returns
      or throws if it is made. */
  method HandleGet(cache: Cache, apiKey: Option<string>, typ: Option<string>, param: Option<string>, upstream: Upstream)
    returns (response: Response, request: Option<Request>)
    modifies cache
    ensures Outcome(response, cache.entries, request) == GetSpec(old(cache.entries), apiKey, typ, param, upstream)
  {
    if !Present(apiKey) {
      return Response(500, ErrorBody(JStr(MissingKeyMessage)), []), None;
    }
    var endpoint := ResolveEndpoint(typ, param);
    var result;
    result, request := FetchFromApi(cache, apiKey, endpoint, upstream);
    match result
    case Ok(data) =>
      response := Response(200, data, SuccessHeaders);
    case Thrown(f) =>
      response := Response(ErrorStatus(f), ErrorBody(ErrorMessage(f)), ErrorHeaders);
  }

  // ---------------------------------------------------------------------
  // Properties of one request
  // ---------------------------------------------------------------------

  /** Without a configured key every request is answered 500 with
      `{error: "API key not configured"}`, before the cache or upstream is
      consulted. */
  lemma MissingKeyRejected(store: map<string, Payload>, apiKey: Option<string>, typ: Option<string>,
                           param: Option<string>, upstream: Upstream)
    requires !Present(apiKey)
    ensures GetSpec(store, apiKey, typ, param, upstream)
      == Outcome(Response(500, JObj([("error", JStr("API key not configured"))]), []), store, None)
  {
  }

  /** Every request ends in exactly one of three ways, told apart by the
      headers of its response: a configuration error, a success, or an
      upstream error. */
  lemma ThreeOutcomes(store: map<string, Payload>, apiKey: Option<string>, typ: Option<string>,
                      param: Option<string>, upstream: Upstream)
    ensures var o := GetSpec(store, apiKey, typ, param, upstream);
      var fetch := FetchSpec(store, apiKey, ResolveEndpoint(typ, param), upstream);
      && (o.response.headers == [] <==> !Present(apiKey))
      && (o.response.headers == SuccessHeaders <==> Present(apiKey) && fetch.result.Ok?)
      && (o.response.headers == ErrorHeaders <==> Present(apiKey) && fetch.result.Thrown?)
  {
  }

  /** A 200 response carries the payload verbatim: either the truthy value
      cached under the endpoint's key, with no upstream call, or the data
      the upstream call returned. */
  lemma SuccessCarriesPayload(store: map<string, Payload>, apiKey: Option<string>, typ: Option<string>,
                              param: Option<string>, upstream: Upstream)
    requires Present(apiKey)
    ensures var o := GetSpec(store, apiKey, typ, param, upstream);
      var key := CacheKey(ResolveEndpoint(typ, param));
      o.response.headers == SuccessHeaders ==>
        && o.response.status == 200
        && ((o.request.None? && Hit(store, key) && o.response.body == store[key] && o.store == store) ||
            (o.request.Some? && upstream == Ok(o.response.body)))
  {
    var endpoint := ResolveEndpoint(typ, param);
    FetchDataOrigin(store, apiKey, endpoint, upstream);
    if Hit(store, CacheKey(endpoint)) {
      HitServedFromCache(store, apiKey, endpoint, upstream);
    }
  }

  /** A failed upstream call leaves the cache untouched and is answered with
      the upstream status (500 if missing or 0) and a non-empty message. */
  lemma UpstreamErrorResponse(store: map<string, Payload>, apiKey: Option<string>, typ: Option<string>,
                              param: Option<string>, f: Failure)
    requires Present(apiKey)
    requires !Hit(store, CacheKey(ResolveEndpoint(typ, param)))
    ensures var o := GetSpec(store, apiKey, typ, param, Thrown(f));
      && o.store == store
      && o.request == Some(UpstreamRequest(apiKey, ResolveEndpoint(typ, param)))
      && o.response.status == (if f.status.Some? && f.status.value != 0 then f.status.value else 500)
      && o.response.body == JObj([("error", ErrorMessage(f))])
      && Truthy(ErrorMessage(f))
      && o.response.headers == [("Access-Control-Allow-Origin", "*")]
  {
    MissCallsUpstream(store, apiKey, ResolveEndpoint(typ, param), Thrown(f));
    FailureLeavesCache(store, apiKey, ResolveEndpoint(typ, param), f);
  }

  /** An upstream 404 whose body says `not found` is answered 404 with
      `{error: "not found"}`. */
  lemma NotFoundPassedThrough(store: map<string, Payload>, apiKey: Option<string>, typ: Option<string>,
                              param: Option<string>, message: Option<string>)
    requires Present(apiKey)
    requires !Hit(store, CacheKey(ResolveEndpoint(typ, param)))
    ensures GetSpec(store, apiKey, typ, param, Thrown(Failure(Some(404), Some(JStr("not found")), message))).response
      == Response(404, JObj([("error", JStr("not found"))]), ErrorHeaders)
  {
  }

  // ---------------------------------------------------------------------
  // Properties of a sequence of requests
  // ---------------------------------------------------------------------

  /** After a request that succeeded with a truthy payload, every request for
      the same route, however its query is spelled, gets the same response
      from the cache, makes no upstream call and changes nothing (expiry is
      not modelled). */
  lemma RepeatedRequestCached(store: map<string, Payload>, apiKey: Option<string>,
                              t1: Option<string>, p1: Option<string>, first: Upstream,
                                                 t2: Option<string>, p2: Option<string>, second: Upstream)
    requires Present(apiKey)
    requires RouteOf(t1, p1) == RouteOf(t2, p2)
    requires GetSpec(store, apiKey, t1, p1, first).response.headers == SuccessHeaders
    requires Truthy(GetSpec(store, apiKey, t1, p1, first).response.body)
    ensures var one := GetSpec(store, apiKey, t1, p1, first);
      GetSpec(one.store, apiKey, t2, p2, second) == Outcome(one.response, one.store, None)
  {
    var endpoint := ResolveEndpoint(t1, p1);
    SameEndpointIffSameRoute(t1, p1, t2, p2);
    assert ResolveEndpoint(t2, p2) == endpoint;
    ThreeOutcomes(store, apiKey, t1, p1, first);
    RepeatServedFromCache(store, apiKey, endpoint, first, second);
  }
}
