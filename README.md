# suggest-places: the fetch pipeline, the memoization layer and suggestion assembly

suggest-places is a small proxy. It turns a place-name fragment into a list of
place suggestions by calling a places API twice: once for autocomplete, then once
per prediction for its details. Every upstream call is memoized. This Dafny
project models the three parts of `index.js` that contain logic:

- **The fetch pipeline** (`Pipeline` in `pipeline.dfy`). `fetchJSON` is an ordered
  chain of eight stages. The first stage that fails ends the chain. Six of the
  stages come from the `composable-fetch` library and stay opaque: each is an
  arbitrary function that passes a value on or fails. The last two have concrete
  semantics: the `data` projection and `checkStatus`, which accepts only
  `status === "OK"`.
- **The memoization layer** (`Memo` in `memo.dfy`, `CacheKey` in `cache_key.dfy`).
  - `memoizeP` works over an abstract backend `{hash, read, write}`. It is
    modelled by the spec function `MemoStep` and by the class `Memoized`, whose
    `Call` method keeps ghost logs of each invocation of the operation and each
    `write`.
  - `inMemory` is one concrete backend, and `memoize` is `memoizeP(inMemory({}))`.
  - The cache key is `JSON.stringify` of the argument list, written out for lists
    of strings. A decoder, `ParseKey`, reads a key back. The round trip between
    them proves that different argument lists always get different keys.
- **Suggestion assembly** (`Suggestions` in `suggestions.dfy`). This covers
  `formatShort`, `formatDetail`, and the body of `getPlaceSuggestions`:
  - fetch the predictions;
  - look up one detail per prediction with `(place_id, language)`;
  - fail the whole list if any lookup fails;
  - merge each prediction with its detail, in prediction order.

  The detail lookup is a parameter.

All JavaScript values share one datatype, `Js.Value`, because the pipeline's stages
are untyped in the source. Reading a property of `null` or `undefined` is a
`TypeError`. That error, like every other exception or rejected promise, is the
`Failure` case of `Js.Result`.

Two points where the code does something other than a reader might expect.
The model follows the code in both:

- `memoizeP` reads the backend before invoking the operation and logs
  "from cache" on a hit (index.js:31-35), so it is meant to return cached
  results. Yet index.js:38 returns what `write` returns, and `inMemory`'s
  `write` (index.js:44) builds a new map and never changes `memory`. So with
  `memoize`, nothing is cached, and each call resolves to the one-entry map
  `{ [key]: result }`. This is a bug; see Findings.
- `getPlaceDetails` returns the decoded `data` unchanged (index.js:56).
  `formatDetail` later picks `result.address_components` and `result.geometry`
  from it (index.js:66-69), and the name comes from the prediction
  (`formatShort`).

## Model

| member | source | states |
|---|---|---|
| `Pipeline.CheckStatus` | index.js:13-16 | The check passes exactly when `status` is the string "OK", and then returns the envelope unchanged. Any other status, including an absent one, fails. For an envelope that is not null or undefined, the failure is `Error("Response was not OK")`. |
| `Pipeline.Chain` | index.js:18-27 | No contract of its own. It is the `|>` / `then` composition: each stage runs on the previous one's value, and a failure ends the chain. `Pipeline.ChainAppend`, `Pipeline.FirstFailure` and `Pipeline.LaterStagesIgnored` state its properties. |
| `Pipeline.ProjectData` | index.js:26 | `({ data }) => data` fails exactly when the response is null or undefined. For an object, it yields its `data` property, or undefined when there is none. |
| `Pipeline.FetchJSON` | index.js:18-27 | No contract of its own. It is the chain of the eight stages in source order. `Pipeline.FetchJSONStructure`, `Pipeline.FetchJSONSuccess`, `Pipeline.FetchJSONNotOk` and `Pipeline.FetchJSONLibraryFailure` state its properties. |
| `Pipeline.ChainAppend` | index.js:18-27 | Running two stage lists one after the other equals running the first list and then, unless it failed, the second list on its value. |
| `Pipeline.FirstFailure` | index.js:18-27 | The stages run in their listed order. On success, all of them ran. On failure, every stage before the last one invoked succeeded, and the last one invoked failed with exactly the chain's error. |
| `Pipeline.LaterStagesIgnored` | index.js:18-27 | Once a stage fails, replacing every stage after it by anything at all leaves the result unchanged. The first failure prevents all later stages. |
| `Pipeline.InvokedAppend` | index.js:18-27 | The stages of a later list are invoked only when every stage of the earlier list succeeded. |
| `Pipeline.FetchJSONStructure` | index.js:18-27 | `fetchJSON` runs the six library stages, then the `data` projection, then `checkStatus`. |
| `Pipeline.FetchJSONSuccess` | index.js:18-27 | `fetchJSON` resolves with `v` exactly when: every library stage succeeded, `v` is the `data` field of the decoded response, and `v.status` is "OK". |
| `Pipeline.FetchJSONNotOk` | index.js:13-27 | Suppose every earlier stage succeeded but `data` has a status other than "OK". Then `fetchJSON` fails with "Response was not OK", after all eight stages ran. |
| `Pipeline.FetchJSONLibraryFailure` | index.js:19-25 | A failing library stage's error is `fetchJSON`'s result. Neither the projection nor `checkStatus` runs. |
| `CacheKey.Key` | index.js:42 | `JSON.stringify` of a list of strings is bracketed by `[` and `]`. |
| `CacheKey.ParseEscaped` | index.js:42 | The escaped body of a string reads back as that string, and reading stops right after its closing quote. |
| `CacheKey.KeyRoundTrip` | index.js:42 | Decoding the key gives back exactly the argument list it was made from. |
| `CacheKey.KeyInjective` | index.js:30 | Two string argument lists get the same key exactly when they are equal element by element. So the key depends on both order and value. |
| `CacheKey.KeyOrderSensitive` | index.js:42 | `("x","en")` and `("en","x")` get different keys. |
| `Memo.MemoStep` | index.js:29-39 | A truthy `read(hash(args))` is returned as it is, without invoking the operation. Otherwise the operation is invoked. If it fails, its failure is the result and nothing is written. If it succeeds, `(key, result)` is written and the call returns what `write` returns. |
| `Memo.Memoized.constructor` | index.js:29 | `memoizeP(backend)(operation)` starts with no invocations and no writes logged. |
| `Memo.Memoized.Call` | index.js:29-39 | Each call returns `MemoStep`'s result. A hit leaves the invocation log unchanged. A miss adds exactly one invocation, with the same arguments. A `write` is logged only for a successful invocation. |
| `Memo.InMemory` | index.js:41-45 | No contract of its own. It is the backend whose `hash` is `CacheKey.Key`, whose `read` looks the key up in `memory`, and whose `write` builds a new map. `Memo.InMemoryWrite`, `Memo.InMemoryHit` and `Memo.MemoizeAlwaysInvokes` state its properties. |
| `Memo.InMemoryWrite` | index.js:41-45 | `write(key, value)` returns `memory` extended with `key ↦ value`: `memory`'s keys plus `key`, with every other entry unchanged. `read` still answers from the unchanged `memory`. |
| `Memo.InMemoryHit` | index.js:41-45 | When `memory` holds a truthy value under the key, the call returns it and does not invoke the operation. |
| `Memo.MemoizeAlwaysInvokes` | index.js:47 | With `memoize = memoizeP(inMemory({}))`, every call invokes the operation. A success returns the one-entry map `{ [key]: result }`. A failure is passed on. |
| `Memo.MemoizeResultHasNoResultField` | index.js:38-44 | What `memoize` resolves with has no `result` property, because its only key starts with `[`. |
| `Memo.MemoizeReturnsCacheMap` | index.js:38 | For a concrete call, the memoized result differs from the operation's own result. |
| `Memo.MemoizeTwice` | index.js:29-47 | Two calls of `memoize(operation)` with the same arguments both invoke the operation, so it is invoked twice, and both resolve to the same value, the one `MemoStep` gives for an empty memory. |
| `Memo.Cache.constructor` | index.js:41-47 | The corrected cache starts empty and sound. |
| `Memo.Cache.Call` | index.js:29-47 | Corrected cache. The call always returns the operation's own result. On a miss, it invokes the operation once and stores a success. On a hit, it invokes nothing and changes nothing. The invariant holds: every entry is what the operation yields for the arguments its key encodes, and no argument list whose result was truthy is invoked twice. |
| `Memo.CacheTwice` | index.js:29-47 | With the corrected cache, two calls with the same arguments both return the operation's own result. The operation is invoked once when that result is truthy and twice otherwise. The cache invariant holds afterwards. |
| `Suggestions.FormatShort` | index.js:59-64 | Succeeds exactly when the prediction and its `structured_formatting` are not null or undefined. It then yields `[main_text, secondary_text]`. Otherwise it fails with a TypeError. |
| `Suggestions.FormatDetail` | index.js:66-69 | Succeeds exactly when the detail and its `result` are not null or undefined. It then yields `result.address_components` and `result.geometry`. Otherwise it fails with a TypeError. |
| `Suggestions.Merge` | index.js:86-89 | The spread of `formatShort` and `formatDetail` succeeds exactly when both do. Its name comes from `formatShort`, and its address components and geometry from `formatDetail`. `formatShort` runs first, so its error is reported when both fail. |
| `Suggestions.DetailOf` | index.js:81 | Reading `short.place_id` throws a TypeError when the prediction is null or undefined. Otherwise the lookup is called with that place id and the language, and its result is the detail. |
| `Suggestions.LookupAll` | index.js:78-84 | Succeeds exactly when every prediction's lookup with `(place_id, language)` succeeds. It then yields one `[short, detail]` pair per prediction, in prediction order. On failure, its error is that of the first failing lookup. |
| `Suggestions.MergeAll` | index.js:85-90 | Succeeds exactly when every pair merges. It then yields one suggestion per pair, in order, each the merge of its pair. On failure, its error is that of the first merge that throws. |
| `Suggestions.PlaceSuggestions` | index.js:72-90 | No contract of its own. It is the operation `getPlaceSuggestions` memoizes: fetch, take `predictions`, map the lookups, then map the merge. `Suggestions.PlaceSuggestionsInOrder`, `Suggestions.PlaceSuggestionsSucceed`, `Suggestions.FetchFailurePropagates`, `Suggestions.PlaceSuggestionsFailOnLookupFailure` and `Suggestions.PlaceSuggestionsFailOnMergeFailure` state its properties. |
| `Suggestions.PlaceSuggestionsInOrder` | index.js:71-90 | On success, there is exactly one suggestion per prediction, in prediction order. Each name comes from that prediction's `structured_formatting`. Its address components and geometry come from `.result` of the detail looked up with that prediction's `(place_id, language)`. |
| `Suggestions.PlaceSuggestionsSucceed` | index.js:71-90 | The list succeeds when the fetch succeeds, `predictions` is an array, and every lookup and every merge succeeds. |
| `Suggestions.FetchFailurePropagates` | index.js:71-77 | When the autocomplete `fetchJSON` fails, the list fails with exactly that error. |
| `Suggestions.PlaceSuggestionsFailOnMergeFailure` | index.js:85-90 | When every lookup succeeds but the merge of some prediction throws, the whole list fails, with the error of the first merge that throws. |
| `Suggestions.MergeFailure` | index.js:85-90 | If the merge of one pair throws, the whole merge step fails, with the error of the first merge that throws at or before it. |
| `Suggestions.PlaceSuggestionsFailOnLookupFailure` | index.js:78-84 | If any one detail lookup fails, the whole list fails, with the error of the first failing lookup. There are no partial results. |
| `Suggestions.MergeOfApiShapes` | index.js:59-69 | For the prediction and detail shapes the places API documents, a merged suggestion holds `main_text`, `secondary_text`, `result.address_components` and `result.geometry`. |
| `Suggestions.AsWrittenSuggestionsFail` | index.js:66-90 | Suppose no successful lookup has a `result` property, as with the memoized `getPlaceDetails`. Then any non-empty prediction list fails. |
| `Suggestions.AsWrittenExampleFails` | index.js:52-90 | With one prediction "A" whose detail fetch succeeds, the list still fails, because the detail comes from `memoize`. |
| `Suggestions.CorrectedExampleSucceeds` | index.js:71-90 | The same input gives the one expected suggestion when the lookup yields the detail itself, which is what the corrected cache returns. |

## Left out

- The Express app, CORS, the `/suggest/:input` route with its default language `"en"`, and its try/catch (index.js:93-109): HTTP server glue.
- `API_KEY`, `PORT` (index.js:49-50), `console.log` (index.js:34) and `global.Headers` (index.js:7): process I/O and environment setup.
- The internals of `composable-fetch` and `node-fetch`: `withHeader`, `withEncodedBody`, `fetch1`, `withSafe204`, `decodeJSONResponse` and the library's `checkStatus`. They are library code, so they stay arbitrary stages. The handling of 204 and of transport status codes is therefore not in the model.
- URL construction with template strings (index.js:54, index.js:74): string interpolation into an external API. The autocomplete request is a parameter of `PlaceSuggestions`, and the detail lookup is a parameter too.
- Concurrency. Two overlapping memoized calls with the same key are not modelled. Nor is the parallel issuing of detail lookups under `Promise.all`. Lookups run one after the other in prediction order. So a failure is reported as the first failing lookup in list order, where `Promise.all` reports the first to fail in time. In the model, lookups after a failing one are not issued; in the source they are.
- The difference between a synchronous throw and a rejected promise: both surface as a `Failure` to the awaiting caller.
- Floating-point numbers: `Num` holds an integer, and `NaN` is not a value of the model.
- Built-in properties of strings, arrays and prototypes (such as `length`), with one exception. The core calls `functor.map(f)` (index.js:9, used at index.js:78 and index.js:85), and `map` is an `Array.prototype` method. The model gives it its meaning only for arrays: `PlaceSuggestions` maps over `predictions` when it is an array and fails with a `TypeError` otherwise. The built-in `map` of any other value is not modelled.
- A backend whose `hash`, `read` or `write` performs I/O or rejects: the backend's three operations are total functions.
- Nondeterministic upstreams: every `Pipeline.Stage`, `fetch1` among them, and every `Memo.Operation` is a function of its input. Two fetches with the same request therefore yield the same data here, while real ones can differ. `Memo.MemoizeTwice`'s equal results and the soundness of `Memo.Cache` rest on this.
- Memo.Cache.Call: assumes a deterministic upstream, as the line above says. The soundness of the corrected cache rests on it.
- Memo.Cache.Call: each corrected cache serves a single operation. The source shares one `inMemory({})` backend between `getPlaceDetails` and `getPlaceSuggestions` (index.js:47, index.js:52, index.js:71), which build the same key for the same `(string, language)` pair. The fix therefore also needs one backend per memoized function, or an operation tag in the key.
- CacheKey.Key: models `JSON.stringify` only for argument lists of strings. This is an assumption about the callers. The places API documents `place_id` as a string, but `getPlaceDetails` receives whatever the upstream sent. `language` is `req.query.language || "en"`, which the query parser can turn into an array; the route is assumed to pass a string. Lists with other values, and `JSON.stringify` in general, are library behaviour. In the worked examples, a lookup with a non-string place id fails; the source would send that request instead.
- CacheKey.Key: a Dafny `string` is a sequence of Unicode scalar values, while a JavaScript string is a sequence of UTF-16 code units. So a lone surrogate, which `JSON.stringify` writes as `\udXXX`, cannot occur in the model.
- `withEncodedBody(JSON.stringify)` and JSON parsing in general are library behaviour.

## Findings

| source | as written | input that shows it | evidently intended | confidence | as-written member | corrected member |
|---|---|---|---|---|---|---|
| index.js:38 | The wrapper returns `write(key, result)`. With `inMemory`, that is the cache map `{ [key]: result }`, not the result. | One prediction "A" whose details resolve. `getPlaceDetails("A", "en")` resolves to `{ '["A","en"]': detail }`. `formatDetail` reads `.result` of that map and throws a TypeError, so the suggestion list fails. | Store the result and return the result itself. | not executed | `Suggestions.AsWrittenExampleFails` | `Memo.Cache.Call` |
| index.js:41-47 | `write` builds a new map and `memory` stays `{}`, so every `read` misses. | Two calls `getPlaceDetails("x", "en")`: both invoke the upstream operation. | Keep the entry so that the second call is served from the cache, with one backend per memoized function (or an operation tag in the key), because `getPlaceDetails("x", "en")` and `getPlaceSuggestions("x", "en")` share the key `["x","en"]`. | not executed | `Memo.MemoizeTwice` | `Memo.CacheTwice` |
