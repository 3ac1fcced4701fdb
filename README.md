# axios-mock-plugin core, modelled in Dafny

This project models the core of `axios-mock-plugin`, a library that answers
axios requests from registered mock handlers instead of the network. The
model covers two files.

- The `AxiosMocker` class (`src/axios-mocker.ts`). It holds a global mock
  configuration and a route registry: a `Map` from `"METHOD pattern"` keys to
  handlers, in insertion order. It also holds the pre-hook and post-hook
  lists.
- The configuration helpers (`src/utils/normalize-config.ts`).
  `normalizeMockConfig` fills a partial configuration from the defaults.
  `mergeMockConfigs` layers a per-request `mock` override onto the global
  configuration.

The class is a Dafny `class` (`Mocker.AxiosMocker`). Whatever it prints with
`console.warn` accumulates in its `warnings` field. The `Map` is the pair
`keys` (the insertion order) and `handlers` (the key-to-handler map). Every
registry method is specified against the functions of module `Registry`, and
every mutating method keeps the invariant `Valid()`: the keys are distinct, and they are exactly
the handler map's keys.

`handleRequest` is the method `HandleRequest`. It is proved equal to the
specification function `RequestDispatch.Dispatch`. That function takes a
snapshot of the mocker's state and runs the stages in this order:

1. merge the configuration;
2. fail when mocking is disabled;
3. fail on a configured error;
4. fail on a random error;
5. resolve the method and path;
6. search the routes in insertion order;
7. choose the delay;
8. build the mock request;
9. run the pre-hooks, then the handler, then the post-hooks.

The lemmas about `Dispatch` state which stage decides each outcome. Messages
from `createError` and `createWarning` carry the `[axios-mock-plugin] `
prefix (`Logger.WithPrefix`, `src/utils/logger.ts`).

The outside world enters as parameters:

- `draw` is the value `Math.random()` returns.
- `matcher` stands in for `path-to-regexp`: given the route's pattern, it
  either throws (with or without an `Error`), does not match, or matches
  with parameters.
- `parse` stands in for `JSON.parse`.
- `dev` is the value `isDevelopment()` returns.
- Asynchronous handlers and hooks are functions returning `Ok` or `Err`.
  `Err(m)` is a rejection with message `m`.
- The awaited delay is the `waited` output of `HandleRequest`.

Module `PathPattern` gives one concrete matcher, for static segments and
`:name` parameters. `Scenarios` uses it to reproduce the route examples of
`__tests__/axios-mocker.spec.ts`.

Notes on the source's behaviour, which the model follows:

- The mock request's `query` is only `axiosConfig.params || {}`. Nothing is
  parsed out of the URL.
- `getDelay` is called as `getDelay(axiosConfig, matchedKey)`.
- A per-request `mock: false` does not disable mocking, because
  `mergeMockConfigs` only reacts to `true` and to objects.
- Every failure before a route is matched returns without delay, and so
  does a `getDelay` that throws, since it is called outside any `try`. A
  failure after the wait (in the body parse, a hook or the handler) comes
  after the delay.

## Model

| member | source | states |
|---|---|---|
| Logger.WithPrefix | src/utils/logger.ts:1-9 | a thrown or warned message is the prefix, a space, then the message, which can be recovered from it |
| Logger.WithPrefixInjective | src/utils/logger.ts:3-5 | distinct messages give distinct error texts |
| NormalizeConfig.NormalizeAbsentIsDefault | src/utils/normalize-config.ts:3-23 | normalizing no configuration, or `{}`, yields exactly `DEFAULT_NORMALIZED_MOCK_CONFIG` |
| NormalizeConfig.NormalizeMockConfig | src/utils/normalize-config.ts:13-23 | `normalizeMockConfig(config?)`; its meaning is stated by NormalizeAbsentIsDefault, NormalizeFields and NormalizeIdempotent |
| NormalizeConfig.MergeMockConfigs | src/utils/normalize-config.ts:25-38 | `mergeMockConfigs(globalConfig, requestConfig)`; its meaning is stated by MergeTrue, MergeNonObject, MergeHeaders, MergeFields and MergeEmpty |
| NormalizeConfig.NormalizeFields | src/utils/normalize-config.ts:13-23 | each normalized field is the given value when present, else its default (enabled true, delay 0, error rate 0, no headers, no error, no getDelay, no logging) |
| NormalizeConfig.NormalizeIdempotent | src/utils/normalize-config.ts:13-23 | normalizing an already normalized configuration gives it back unchanged |
| NormalizeConfig.NormalizeIsMergeOntoDefaults | src/utils/normalize-config.ts:13-38 | normalizing a partial configuration is merging it, as an object override, onto the defaults |
| NormalizeConfig.MergeTrue | src/utils/normalize-config.ts:29 | `mock: true` sets `enabled` and keeps every other global field |
| NormalizeConfig.MergeNonObject | src/utils/normalize-config.ts:30 | `false`, `undefined`, `null` or another non-object leaves the global configuration unchanged |
| NormalizeConfig.MergeHeaders | src/utils/normalize-config.ts:34 | merged headers have the union of the key sets; the request's value wins on a collision; the other global values survive |
| NormalizeConfig.MergeFields | src/utils/normalize-config.ts:31-37 | every other field of an object override wins when present and falls back to the global value when absent |
| NormalizeConfig.MergeEmpty | src/utils/normalize-config.ts:31-37 | merging the empty object `{}` is the identity |
| Strings.Upper | src/axios-mocker.ts:109 | upper-casing keeps the length and maps each character to its upper case |
| Strings.UpperIdempotent | src/axios-mocker.ts:109-120 | upper-casing twice is upper-casing once, so an upper-cased method compares equal to its route's upper-cased method |
| Strings.Split | src/axios-mocker.ts:119 | `split` always yields at least one piece |
| Strings.JoinSplit | src/axios-mocker.ts:119 | joining the pieces of a split with the separator gives back the original string |
| Strings.SplitPiecesFree | src/axios-mocker.ts:119 | no piece of a split contains the separator |
| Strings.SplitWhole | src/axios-mocker.ts:119 | a string without the separator splits into itself alone |
| Strings.SplitAtFirst | src/axios-mocker.ts:119 | the first piece ends at the first separator |
| Strings.SplitJoin | src/axios-mocker.ts:119 | pieces free of the separator are recovered by splitting their join |
| Strings.JoinAvoids | src/axios-mocker.ts:119 | a character other than the separator that occurs in no piece does not occur in the join |
| Strings.DigitChar | src/axios-mocker.ts:102 | the character of a digit is a decimal digit character denoting that digit |
| Strings.NatToString | src/axios-mocker.ts:102 | `${status}` is a non-empty string of decimal digits, without a leading zero, whose decimal value is the status |
| Strings.IntToString | src/axios-mocker.ts:102 | `${status}` for an integer status: a minus sign for a negative one, then NatToString's digits; stated for 500 by Scenarios.Status500Rendered |
| Strings.ShowOptional | src/axios-mocker.ts:97-102 | `${url}` and `${message}` for an optional string: the string, or `undefined` when absent; stated by DisabledFails and ForcedErrorFails |
| Registry.Put | src/axios-mocker.ts:66 | `map.set` keeps the old keys as a prefix; it appends the key exactly when the key is new and never creates a duplicate |
| Registry.Remove | src/axios-mocker.ts:70 | `map.delete` removes exactly the given key, keeps distinctness, and is a no-op on an absent key |
| Registry.RemoveSplit | src/axios-mocker.ts:70 | deleting a key that occurs once keeps the keys before and after it, in order |
| Registry.DistinctAt | src/axios-mocker.ts:70 | in keys without duplicates, the key at a position occurs neither before nor after it |
| Registry.RemoveAt | src/axios-mocker.ts:70 | on distinct keys, deleting the key at position i drops exactly that position |
| Registry.KeysOf | src/axios-mocker.ts:37-42 | the keys of a bulk-load source are its entries' keys, position by position |
| Registry.IndexOf | src/axios-mocker.ts:37-42 | the position returned is the first occurrence |
| Registry.LastIndex | src/axios-mocker.ts:37-42 | the position returned is the last occurrence |
| Registry.Entries | src/axios-mocker.ts:36-42 | the entries a bulk load visits: a Map's or an object's, none for anything else; used by the class contracts and by LoadKeysShape and LoadHandlersLookup |
| Registry.LoadKeys | src/axios-mocker.ts:34-47 | the key order after `addEndpoint` on each entry in turn; its meaning is stated by LoadKeysShape, LoadKeysOrder and LoadIntoEmpty |
| Registry.LoadHandlers | src/axios-mocker.ts:34-47 | the handler map after `addEndpoint` on each entry in turn; its meaning is stated by LoadHandlersLookup |
| Registry.DuplicateWarning | src/axios-mocker.ts:63-64 | the warning `addEndpoint` prints: one, only in development and only for a registered key; stated by Mocker.AxiosMocker.AddEndpoint and LoadWarningsCount |
| Registry.LoadWarnings | src/axios-mocker.ts:37-43 | the warnings of a bulk load, entry by entry; counted by LoadWarningsCount |
| Registry.SourceWarnings | src/axios-mocker.ts:34-47 | a bulk load's warnings: the invalid-source warning in development, else the entries' duplicate warnings; stated by Mocker.AxiosMocker.LoadEndpoints |
| Registry.LoadStep | src/axios-mocker.ts:37-43 | each further entry of a bulk load puts its key, sets its handler and adds its duplicate warning |
| Registry.KeysOfInit | src/axios-mocker.ts:37-42 | the keys of a source are those of its prefix followed by the last entry's key |
| Registry.LoadKeysShape | src/axios-mocker.ts:34-47 | a bulk load keeps the existing keys as a prefix, registers exactly the old keys plus the source's keys, and never introduces a duplicate |
| Registry.IndexOfAppend | src/axios-mocker.ts:37-42 | appending an element does not move the first occurrence of an element already present |
| Registry.LoadKeysOrder | src/axios-mocker.ts:34-47 | the keys a bulk load appends come from the source, ordered by their first occurrence in it |
| Registry.LoadIntoEmpty | src/axios-mocker.ts:53-56 | after `setEndpoints`, the keys are the source's distinct keys, ordered by first occurrence |
| Registry.LoadHandlersLookup | src/axios-mocker.ts:37-43 | after a bulk load, a key is registered iff it was before or the source has it; its handler is its last entry's handler, else the previous one |
| Registry.LoadWarningsCount | src/axios-mocker.ts:62-64 | outside development no duplicate warning is printed; in development each entry either adds a new key or prints exactly one warning |
| Hooks.RunAll | src/axios-mocker.ts:161-163 | the hook loop gives what running the hooks in order gives: the first thrown error, or the value the last hook leaves |
| Hooks.RunHooks | src/axios-mocker.ts:161-163 | running hooks one after the other; its meaning is stated by RunHooksAppend and StopsAtFirstFailure, and RunAll is proved equal to it |
| Hooks.RunHooksAppend | src/axios-mocker.ts:85-91 | running `a + b` is running `a`, then `b` on its result, so a hook added later runs later |
| Hooks.StopsAtFirstFailure | src/axios-mocker.ts:161-163 | when the hooks before i succeed and hook i throws, the run fails with that error and no later hook matters |
| Matching.SplitKeyPieces | src/axios-mocker.ts:119 | key `"M P"` yields method M and pattern P; anything after a second space is dropped; a key without a space has no pattern |
| Matching.SplitKey | src/axios-mocker.ts:119 | `const [endpointMethod, endpointPath] = key.split(' ')`; stated by SplitKeyPieces |
| Matching.MethodMatches | src/axios-mocker.ts:120 | the route's method, upper-cased, is the request's method; stated by Search, IgnoresOtherMethods and NotFoundIff |
| Matching.Skipped | src/axios-mocker.ts:120-128 | a route the loop passes over: another method (`continue`), or a pattern that compiles and gives a falsy result; stated by SearchSkipsPrefix, FirstDecisive and NotFoundIff |
| Matching.ThrownMessage | src/axios-mocker.ts:130 | an `Error`'s message, else `The endpoint "M P" is invalid.`; stated by FirstDecisive and PatternErrorFails |
| Matching.ResolveMethod | src/axios-mocker.ts:109 | the resolved method is the given method upper-cased, or `GET` when it is absent or empty; either way non-empty and already upper case |
| Matching.StripBase | src/axios-mocker.ts:110-114 | a non-empty base URL that prefixes the URL is removed from it, and otherwise the path is the URL itself |
| Matching.Search | src/axios-mocker.ts:116-133 | a found key is registered, has the request's method, and its pattern matched the path with the returned parameters |
| Matching.Decide | src/axios-mocker.ts:120-131 | what the search concludes at a route of the request's method: a match, or a throw's message; stated by FirstDecisive and DecidedByFirst |
| Matching.SearchSkipsPrefix | src/axios-mocker.ts:118-120 | routes that are passed over (other method, or pattern compiles and does not match) do not affect the search |
| Matching.FirstDecisive | src/axios-mocker.ts:118-133 | the first route that is not passed over decides: a match beats every later route, and a throwing pattern aborts even when a later route would match |
| Matching.NotFoundIff | src/axios-mocker.ts:116-137 | nothing is found iff every route is passed over |
| Matching.DecidedByFirst | src/axios-mocker.ts:118-133 | a concluded search was decided by some route that every earlier route was passed over before |
| Matching.IgnoresOtherMethods | src/axios-mocker.ts:120 | patterns of routes with another method are never consulted |
| Matching.FoundKeyNonEmpty | src/axios-mocker.ts:135 | a matched key is never empty, so `!matchedKey` holds exactly when nothing matched |
| PathPattern.MatchSegmentsSucceeds | src/axios-mocker.ts:122-126 | a segment match succeeds exactly when every static segment equals its path segment and every `:name` segment faces a non-empty one |
| PathPattern.MatchSegmentsNames | src/axios-mocker.ts:122-126 | the names a successful match binds are exactly the pattern's parameter names |
| PathPattern.MatchSegmentsBinds | src/axios-mocker.ts:122-126 | each parameter name is bound to the path segment of its last occurrence in the pattern |
| PathPattern.MatchSegments | src/axios-mocker.ts:122-126 | segment-wise matching of the illustrative matcher; its meaning is stated by MatchSegmentsSucceeds, MatchSegmentsNames and MatchSegmentsBinds |
| PathPattern.SimpleMatch | src/axios-mocker.ts:122-126 | the illustrative `match(pattern)(path)`: a throw for a malformed pattern, else the segment match; stated by UsersIdExample, StaticPatternMatchesItself and QuestionMarkRejected |
| PathPattern.MatchSegmentsStatic | src/axios-mocker.ts:122-126 | a pattern without parameters matches its own segments and binds nothing |
| PathPattern.WellFormedFromSegments | src/axios-mocker.ts:122 | a pattern joined from segments without `/` or `?`, none a bare `:`, compiles and splits back into those segments |
| PathPattern.StaticPatternMatchesItself | src/axios-mocker.ts:122-126 | such a pattern without parameters matches its own text with empty parameters |
| PathPattern.SplitUsersId | src/axios-mocker.ts:122 | `/api/users/:id` splits into its `/`-segments |
| PathPattern.SplitUsersOne | src/axios-mocker.ts:123 | `/api/users/1` splits into its `/`-segments |
| PathPattern.SplitPostsOne | src/axios-mocker.ts:123 | `/api/posts/1` splits into its `/`-segments |
| PathPattern.ApiUsersWellFormed | src/axios-mocker.ts:122 | `/api/users/:id` compiles |
| PathPattern.ApiUsersSegments | src/axios-mocker.ts:123-126 | segment matching binds `id` to "1" for `/api/users/1` and fails for `/api/posts/1` |
| PathPattern.UsersIdExample | src/axios-mocker.ts:122-126 | `/api/users/:id` matches `/api/users/1` with `{ id: "1" }` and does not match `/api/posts/1` |
| PathPattern.QuestionMarkRejected | src/axios-mocker.ts:122 | a pattern containing `?` throws a compile error naming the pattern |
| PathPattern.QuestionMarkExample | src/axios-mocker.ts:122 | `/api/posts/?id` throws `invalid pattern: /api/posts/?id` |
| RequestDispatch.DisabledFails | src/axios-mocker.ts:94-98 | with mocking disabled after the merge, the request fails first, naming its URL, without delay |
| RequestDispatch.ForcedErrorFails | src/axios-mocker.ts:100-103 | otherwise a configured error fails with `message (status: s)`, s defaulting to 500, without delay |
| RequestDispatch.RandomErrorFails | src/axios-mocker.ts:105-107 | otherwise a draw below a positive error rate fails with the random error, without delay |
| RequestDispatch.DrawOnlyDecidesRandomError | src/axios-mocker.ts:105 | two draws that both pass the error-rate test give the same outcome and delay |
| RequestDispatch.ZeroErrorRateIgnoresDraw | src/axios-mocker.ts:105 | with an error rate of 0 or less, the draw never matters |
| RequestDispatch.PatternErrorFails | src/axios-mocker.ts:129-132 | after the checks, a throwing pattern fails with `Path matching failed: message`, without delay |
| RequestDispatch.NoRouteFails | src/axios-mocker.ts:135-137 | after the checks, no match fails with `No mock endpoint found for "M P"`, naming the resolved method and path, without delay |
| RequestDispatch.MatchedRouteServes | src/axios-mocker.ts:139-192 | on a match, a `getDelay(config, key)` that throws fails the request with its own error and no wait; otherwise the request waits for its result when configured, else for the static delay (only when positive), and the matched handler then serves it |
| RequestDispatch.WaitOnlyAfterMatch | src/axios-mocker.ts:96-145 | the wait is never negative, and a request that waited passed every check and matched a route |
| RequestDispatch.MockRequestContents | src/axios-mocker.ts:147-151 | the mock request carries the route parameters, the request params (or `{}`) as its query, and the body, parsed only when it is a string; a parse error escapes unwrapped |
| RequestDispatch.ServeSucceeds | src/axios-mocker.ts:161-192 | the handler receives the pre-hooks' result; its data becomes a 200 "OK" response with the merged headers, which the post-hooks then transform |
| RequestDispatch.HandlerFailureWrapped | src/axios-mocker.ts:165-172 | a handler failure becomes `Handler for KEY failed: message` |
| RequestDispatch.PreHookFailurePropagates | src/axios-mocker.ts:161-163 | a failing pre-hook's error escapes unchanged, and the handler never runs |
| RequestDispatch.PreMatchFailure | src/axios-mocker.ts:96-107 | the three checks before any route is looked at, in their order; stated by DisabledFails, ForcedErrorFails, RandomErrorFails and DrawOnlyDecidesRandomError |
| RequestDispatch.ChooseDelay | src/axios-mocker.ts:139-141 | `getDelay(config, key)` when configured, which may throw, else the static delay; stated by MatchedRouteServes |
| RequestDispatch.BuildMockRequest | src/axios-mocker.ts:147-151 | the mock request; stated by MockRequestContents |
| RequestDispatch.Serve | src/axios-mocker.ts:147-192 | everything after the wait; stated by ServeSucceeds, HandlerFailureWrapped and PreHookFailurePropagates, and ServeRoute is proved equal to it |
| RequestDispatch.Dispatch | src/axios-mocker.ts:93-193 | one `handleRequest` on a snapshot of the state; each stage's outcome is stated by the lemmas DisabledFails through MatchedRouteServes and WaitOnlyAfterMatch, and HandleRequest is proved equal to it |
| RequestDispatch.ForcedErrorMessage | src/axios-mocker.ts:101-102 | `${message} (status: ${status})` with status 500 by default; stated by ForcedErrorFails and Scenarios.ForcedErrorScenario |
| RequestDispatch.NotFoundMessage | src/axios-mocker.ts:136 | `No mock endpoint found for "M P"`; stated by NoRouteFails |
| RequestDispatch.BuildResponse | src/axios-mocker.ts:174-180 | the response: the handler's data, status 200, `OK`, the merged headers and the request; stated by ServeSucceeds |
| RequestDispatch.RequestMethod | src/axios-mocker.ts:109 | the method routes are compared with: ResolveMethod of the request's method |
| RequestDispatch.RequestPath | src/axios-mocker.ts:110-114 | the path routes are matched against: `url || ''` with a prefixing base URL sliced off (StripBase); stated by the scenario lemmas LocalhostNotStripped and ExampleBaseStripped |
| Mocker.AxiosMocker.constructor | src/axios-mocker.ts:26-32 | the configuration is the normalized option, there are no hooks, and the option's endpoints are loaded into an empty registry |
| Mocker.AxiosMocker.Valid | src/axios-mocker.ts:22 | the `Map`'s invariant: its keys in insertion order have no duplicates and are exactly the keys with a handler; established by the constructor and kept by every mutating method |
| Mocker.AxiosMocker.LoadEndpoints | src/axios-mocker.ts:34-47 | it adds the entries of a Map or object one by one, in order; a falsy source adds and prints nothing; in development it warns once for any other truthy value; it keeps `Valid()` |
| Mocker.AxiosMocker.AddEntries | src/axios-mocker.ts:37-43 | calling `addEndpoint` on each entry in turn leaves exactly the bulk-load registry and warnings, keeping `Valid()` |
| Mocker.AxiosMocker.ClearEndpoints | src/axios-mocker.ts:49-51 | the registry becomes empty and nothing else changes |
| Mocker.AxiosMocker.SetEndpoints | src/axios-mocker.ts:53-56 | the registry becomes exactly the loaded source |
| Mocker.AxiosMocker.AddEndpoints | src/axios-mocker.ts:58-60 | the source is loaded on top of the current registry |
| Mocker.AxiosMocker.AddEndpoint | src/axios-mocker.ts:62-67 | `map.set`: a new key goes last and a known key keeps its place with the new handler; in development a known key is reported as a duplicate |
| Mocker.AxiosMocker.RemoveEndpoint | src/axios-mocker.ts:69-71 | the key's position is dropped and the other keys stay in order; an unknown key changes nothing |
| Mocker.AxiosMocker.ListEndpoints | src/axios-mocker.ts:73-75 | it returns the keys in insertion order, each once, exactly those with a handler |
| Mocker.AxiosMocker.GetConfig | src/axios-mocker.ts:77-79 | the current global configuration |
| Mocker.AxiosMocker.UpdateConfig | src/axios-mocker.ts:81-83 | the new configuration is the argument normalized against the defaults, not merged with the old one |
| Mocker.AxiosMocker.AddPreHook | src/axios-mocker.ts:85-87 | the hook is appended and runs after the hooks already registered |
| Mocker.AxiosMocker.AddPostHook | src/axios-mocker.ts:89-91 | the hook is appended and runs after the hooks already registered |
| Mocker.AxiosMocker.FindRoute | src/axios-mocker.ts:116-133 | the search loop over the keys in insertion order returns what `Matching.Search` specifies |
| Mocker.AxiosMocker.ServeRoute | src/axios-mocker.ts:147-192 | building the mock request, running the pre-hooks, the handler and the post-hooks yields what `Serve` specifies |
| Mocker.AxiosMocker.HandleRequest | src/axios-mocker.ts:93-193 | the outcome and the awaited delay are exactly `Dispatch` on the current state |
| Scenarios.GetIsUpperCase | src/axios-mocker.ts:109 | the method `GET` resolves to itself |
| Scenarios.LocalhostNotStripped | src/axios-mocker.ts:112-114 | a base URL that does not prefix the URL is not stripped |
| Scenarios.KeyUsers | src/axios-mocker.ts:119 | `GET /api/users` splits into `GET` and `/api/users` |
| Scenarios.KeyUsersId | src/axios-mocker.ts:119 | `GET /api/users/:id` splits into `GET` and `/api/users/:id` |
| Scenarios.KeyPostsQuestion | src/axios-mocker.ts:119 | `GET /api/posts/?id` splits into `GET` and `/api/posts/?id` |
| Scenarios.ApiUsersMatches | src/axios-mocker.ts:122-126 | `/api/users` matches itself with no parameters |
| Scenarios.ExampleBaseStripped | __tests__/axios-mocker.spec.ts:294-297 | `http://api.example.com` is sliced off `http://api.example.com/api/users`, leaving `/api/users` |
| Scenarios.BaseUrlRouted | __tests__/axios-mocker.spec.ts:294-309 | that request is served by the `GET /api/users` handler with no parameters and no delay |
| Scenarios.BaseUrlSliced | __tests__/axios-mocker.spec.ts:294-309 | the base URL is sliced off and the route's data comes back as a 200 response, without delay |
| Scenarios.ParameterBound | __tests__/axios-mocker.spec.ts:328-342 | the search finds `GET /api/users/:id` for `/api/users/1`, with `id` bound to "1" |
| Scenarios.ParametersReachHandler | __tests__/axios-mocker.spec.ts:328-342 | the handler receives `{ id: "1" }`, and its data is the response's |
| Scenarios.UsersFound | __tests__/axios-mocker.spec.ts:312-326 | the search finds `GET /api/users` for `/api/users` |
| Scenarios.StaticDelayAwaited | __tests__/axios-mocker.spec.ts:387-402 | `delay: 300` makes a matched request wait 300 ms |
| Scenarios.DelayFunctionAwaited | __tests__/axios-mocker.spec.ts:404-421 | `getDelay: () => 300` makes a matched request wait 300 ms |
| Scenarios.EnabledPasses | src/axios-mocker.ts:96-107 | `{ enabled: true }` passes all three pre-match checks |
| Scenarios.PostsNotFound | __tests__/axios-mocker.spec.ts:372-385 | `/api/posts/1` matches no route when only `GET /api/users/:id` is registered |
| Scenarios.NoMatchingRoute | __tests__/axios-mocker.spec.ts:372-385 | that request fails with `No mock endpoint found for "GET /api/posts/1"` |
| Scenarios.QuestionSearchFails | __tests__/axios-mocker.spec.ts:358-370 | searching with the route `GET /api/posts/?id` aborts on its pattern error |
| Scenarios.PatternRejected | __tests__/axios-mocker.spec.ts:358-370 | that request fails with `Path matching failed: invalid pattern: /api/posts/?id` |
| Scenarios.DisabledScenario | __tests__/axios-mocker.spec.ts:262-271 | `enabled: false` fails with `[axios-mock-plugin] Mocking is disabled for this request: /api/users` |
| Scenarios.RandomErrorScenario | __tests__/axios-mocker.spec.ts:283-292 | error rate 0.5 with draw 0.1 fails with the random error |
| Scenarios.Status500Rendered | src/axios-mocker.ts:102 | the status 500 renders as `500` |
| Scenarios.ForcedErrorScenario | __tests__/axios-mocker.spec.ts:273-281 | a configured error `{ status: 500, message: 'Internal Server Error' }` fails with `Internal Server Error (status: 500)`, without delay |
| Scenarios.DelayFunctionThrows | src/axios-mocker.ts:139-141 | a `getDelay` that throws on a matched route rejects with its own error, unwrapped, and nothing is awaited |

## Left out

- Logging (`createLog` at src/axios-mocker.ts:153-159 and 186-190) is left out: what it prints is not part of the model.
- Mocker.AxiosMocker.HandleRequest: with `enableLogging` on, `JSON.stringify(responseData)` at src/axios-mocker.ts:188 throws for BigInt or circular data, so the source rejects a request after its post-hooks have run; the model, which leaves logging out, reports that request as served.
- Asynchrony is left out. Handlers and hooks are modelled as functions that return their outcome, and the timer delay is reported as `waited` instead of being awaited.
- Hooks and handlers that mutate the request or response in place are modelled as returning the changed value. Aliasing is not modelled:
  - between the mock request, the response and the caller's objects;
  - between `response.headers` and the global configuration's `headers`: when the request's `mock` is absent, `true`, `false` or not an object, the merged configuration shares `this.config.headers` (src/utils/normalize-config.ts:29-30), and the response carries that same object (src/axios-mocker.ts:178), so a post-hook that edits `response.headers` changes the configuration of later requests;
  - between the object `getConfig()` returns and the mocker's own configuration, which a caller can change through it.
- `path-to-regexp` is a parameter (`Matcher`), and every property of `Dispatch` holds for any matcher. `PathPattern.SimpleMatch`, used only by the example lemmas, is an illustrative matcher with its own error messages. It differs from path-to-regexp's `match` in these ways:
  - it supports no modifiers, wildcards or URI decoding;
  - it is case-sensitive, where path-to-regexp's default (`sensitive: false`) is not;
  - it is strict about a trailing `/`, where path-to-regexp's default (`strict: false`) accepts one;
  - a `:name` parameter takes any non-empty segment, including one that contains `?` or `#`, where path-to-regexp's default parameter pattern excludes them.
- `JSON.parse`, `Math.random` and `isDevelopment()` are parameters.
- `getDelay` receives the request without its `mock` field. Dafny cannot express a request type that contains a function taking that same type.
- A `MockConfig` field that is present but explicitly `undefined` is modelled as absent. With `??` both fall back, except that the spread in `mergeMockConfigs` would copy an explicit `undefined` for `delay`, `errorRate`, `error` and `enableLogging`.
- `Strings.Upper` only upper-cases ASCII letters. The source uses `toUpperCase`, which follows Unicode case mapping.
- Numbers are modelled as follows:
  - `delay` and statuses are `int`;
  - `errorRate` and the random draw are `real`;
  - `NaN` and fractional delays are not modelled.
- `Object.keys` enumeration order (integer-like keys first) is not modelled. An object source lists its entries in the order it holds them.
- A `Map` or object entry whose handler is not a function is not modelled.
- `attachMockInterceptor`, `detachMockInterceptor`, `url-parser` and `isDevelopment` are not part of this model.
