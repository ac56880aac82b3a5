# Exercise proxy model

A Dafny model of the exercise proxy of a fitness-tracker web application. The
proxy's GET handler (`src/app/api/exercises/route.ts`) does four things:

- it checks that the exercise-database API key is configured;
- it maps the query values `type` and `param` to an upstream path under
  `/exercises`;
- it fetches that path through a process-wide key/value cache, keyed
  `exercise_<endpoint>`;
- it turns the result into a 200 response, or turns a thrown upstream
  error into an error response.

The model has five modules:

- `Wrappers` (`wrappers.dfy`): the `Option` type, used for query values,
  the configured key and the optional fields of an upstream error.
- `JsValue` (`js_value.dfy`): passthrough JSON payloads and JavaScript
  truthiness. `null`, `false`, `0` and `""` are falsy. A missing query value
  and an empty one are both absent.
- `Endpoint` (`endpoint.dfy`): `ResolveEndpoint`, written as the handler's
  two `switch` statements. Beside it is a separate statement of the endpoint
  table (`Route`, `RouteOf`, `Path`) and a parser that reads a path back
  (`Parse`). Lemmas prove that the code computes the table and that the
  table is injective.
- `CacheThrough` (`cache_through.dfy`): the cache as a class `Cache` whose
  `entries` map the method `FetchFromApi` updates in place. `FetchSpec` is
  the same fetch as a function, and the lemmas about it cover hits, misses,
  failures, the frame and repeated fetches.
- `ExerciseHandler` (`exercise_handler.dfy`): `HandleGet` and its
  specification `GetSpec`, with the error status and message choice and
  lemmas on the three possible outcomes.

The upstream call is a parameter `upstream: Upstream`. It says what the call
would return (`Ok(data)`) or throw (`Thrown(Failure(status, responseMessage,
message))`). Whether the call was made is recorded as the `Request` the proxy
would send: its URL and its two provider headers.

Two behaviours of the code are easy to miss:

- A list type (`bodyPartList`, `equipmentList`, `targetList`) given a
  non-empty `param` falls back to `/exercises`
  (`Endpoint.ResolveDefault`).
- A falsy payload (`null`, `false`, `0`, `""`) is stored but treated as a
  miss, so the next request for it calls upstream again
  (`CacheThrough.FalsyPayloadRefetched`). Only truthy payloads are served
  again from the cache (`CacheThrough.RepeatServedFromCache`,
  `ExerciseHandler.RepeatedRequestCached`; expiry is not modelled).

## Model

| member | source | states |
|---|---|---|
| `Endpoint.ResolveMatchesTable` | src/app/api/exercises/route.ts:46-78 | the handler's nested `switch` computes exactly the endpoint table: a known path type with a present parameter, a known list type without one, otherwise `/exercises` |
| `Endpoint.ResolveFieldPaths` | src/app/api/exercises/route.ts:48-65 | with `type` and `param` both non-empty, `bodyPart`, `equipment`, `target`, `name`, `id` give `/exercises/bodyPart/`, `/exercises/equipment/`, `/exercises/target/`, `/exercises/name/`, `/exercises/exercise/` followed by `param` verbatim |
| `Endpoint.ResolveListPaths` | src/app/api/exercises/route.ts:66-77 | with `type` non-empty and `param` missing or empty, the three list types give their fixed list paths |
| `Endpoint.ResolveDefault` | src/app/api/exercises/route.ts:46-78 | no `type`, an unknown `type`, a list type with a `param` and a path type without one all give exactly `/exercises` |
| `Endpoint.EndpointUnderBase` | src/app/api/exercises/route.ts:46-78 | every resolved endpoint starts with `/exercises` |
| `Endpoint.RouteOf` | src/app/api/exercises/route.ts:48 | a route that filters by a field always carries a non-empty parameter |
| `Endpoint.ParsePath` | src/app/api/exercises/route.ts:46-78 | every path of the table reads back as the route it came from, so distinct routes have distinct paths |
| `Endpoint.SameEndpointIffSameRoute` | src/app/api/exercises/route.ts:46-78 | two queries resolve to the same endpoint if and only if they ask for the same route |
| `CacheThrough.CacheKeyInjective` | src/app/api/exercises/route.ts:13 | the key `exercise_` + endpoint is equal for two endpoints if and only if the endpoints are equal |
| `CacheThrough.Cache.constructor` | src/utils/cache.ts:4 | the process-wide cache starts empty |
| `CacheThrough.FetchFromApi` | src/app/api/exercises/route.ts:12-29 | the in-place fetch returns, requests and leaves in the cache exactly what `FetchSpec` says of the cache before it |
| `CacheThrough.HitServedFromCache` | src/app/api/exercises/route.ts:14-18 | a truthy cached value is returned as it is, with no upstream call and the cache unchanged |
| `CacheThrough.MissCallsUpstream` | src/app/api/exercises/route.ts:16-25 | a missing or falsy cached value leads to one upstream GET of the provider URL plus the endpoint, with the key and host headers, and the fetch returns what upstream returns or throws |
| `CacheThrough.MissStoresData` | src/app/api/exercises/route.ts:20-28 | after a miss and an upstream success, the data is returned and stored under the endpoint's key; no key is lost and every other key keeps its value |
| `CacheThrough.FailureLeavesCache` | src/app/api/exercises/route.ts:20-27 | a thrown upstream call leaves the cache exactly as it was |
| `CacheThrough.FetchWritesOnlyItsKey` | src/app/api/exercises/route.ts:12-29 | in every case the fetch removes no entry and writes at most the endpoint's own key |
| `CacheThrough.FetchDataOrigin` | src/app/api/exercises/route.ts:12-29 | returned data is either the cached value without an upstream call or the upstream data after a call |
| `CacheThrough.RepeatServedFromCache` | src/app/api/exercises/route.ts:14-28 | after a fetch that yields truthy data, the next fetch of the same endpoint returns the same data from the cache, whatever upstream would say, and changes nothing (expiry is not modelled) |
| `CacheThrough.FalsyPayloadRefetched` | src/app/api/exercises/route.ts:16 | a falsy payload stored after a miss is not served: the next fetch of that endpoint calls upstream again |
| `CacheThrough.FetchLeavesOtherEndpoints` | src/app/api/exercises/route.ts:13-28 | a fetch of one endpoint never changes what the cache holds for a different endpoint |
| `ExerciseHandler.ErrorStatus` | src/app/api/exercises/route.ts:94 | the error status is never 0; it is the upstream status when that is present and non-zero, else 500 |
| `ExerciseHandler.ErrorMessage` | src/app/api/exercises/route.ts:93 | the error message is always truthy and is the first truthy one of the upstream `message`, the error's message and `Failed to fetch exercises` |
| `ExerciseHandler.HandleGet` | src/app/api/exercises/route.ts:32-106 | the handler's response, upstream request and new cache are exactly what `GetSpec` says of the cache before it |
| `ExerciseHandler.MissingKeyRejected` | src/app/api/exercises/route.ts:34-40 | a missing or empty key gives status 500 with `{error: "API key not configured"}` and no headers, with the cache unchanged and no upstream call, for any query |
| `ExerciseHandler.ThreeOutcomes` | src/app/api/exercises/route.ts:32-106 | every request ends as exactly one of a configuration error, a success or an upstream error, and each comes with its own set of headers |
| `ExerciseHandler.SuccessCarriesPayload` | src/app/api/exercises/route.ts:80-89 | a success is status 200 and its body is either the truthy cached value, with no upstream call and the cache unchanged, or the upstream data |
| `ExerciseHandler.UpstreamErrorResponse` | src/app/api/exercises/route.ts:90-104 | after a thrown upstream call the cache is unchanged, and the response has the upstream status (500 if missing or 0), the body `{error: message}` with a truthy message, and only the allow-origin header |
| `ExerciseHandler.NotFoundPassedThrough` | src/app/api/exercises/route.ts:90-104 | an upstream 404 whose body message is `not found` is answered 404 with `{error: "not found"}` |
| `ExerciseHandler.RepeatedRequestCached` | src/app/api/exercises/route.ts:43-89 | after a success with a truthy payload, any request for the same route gets the same response from the cache, with no upstream call and no change (expiry is not modelled) |

## Left out

- The `OPTIONS` preflight handler (src/app/api/exercises/route.ts:108-119). It is written to return a constant 204 response with fixed cross-origin headers.
- The news route (src/app/api/news/route.ts). It makes one uncached upstream call with fixed query parameters. Its configuration check and error mapping have the same shape as the exercise route's.
- Cache expiry. `node-cache` removes an entry 3600 seconds after it was set (src/utils/cache.ts:4). Its timing is library behaviour and is not modelled, so the cache here keeps every entry for the process lifetime.
- Concurrency. Simultaneous requests can race on the shared cache or both miss it. The model handles one request at a time.
- I/O. The network call, the `process.env` reads, query-string parsing and decoding (`searchParams.get`), JSON serialisation of responses and `console.error` logging are not modelled. Upstream and configuration are parameters, and query values arrive already decoded.
- JavaScript numbers are modelled as integers, so `NaN` and fractional statuses are not covered.
- Exceptions other than the upstream call's are not modelled. One example is `new URL` rejecting a malformed request URL. Another is the response constructor rejecting the status the catch block passes on (route.ts:94-103): a status outside 200-599, or 204, 205 or 304 with a body, would make the catch block itself throw. `ErrorStatus` and `UpstreamErrorResponse` return a response with that status instead.
- The upstream error's `response.data.message` is modelled as one optional payload. It is missing when the response, its body or the field is missing. The error's own message is modelled as an optional string.
