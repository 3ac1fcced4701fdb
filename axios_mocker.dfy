/** The `AxiosMocker` class (src/axios-mocker.ts): the global configuration,
    the route registry (a `Map` from `"METHOD pattern"` keys to handlers,
    enumerated in insertion order), the two hook lists, and `handleRequest`.
    The registry is the pair `keys`/`handlers`; `warnings` collects what the
    class prints with `console.warn`. `dev` is the value `isDevelopment()`
    returns during the call. */
module Mocker {

  import opened Types
  import opened Strings
  import opened Logger
  import opened NormalizeConfig
  import opened Registry
  import opened Matching
  import opened Hooks
  import opened RequestDispatch

  class AxiosMocker {
    var config: NormalizedMockConfig
    var keys: seq<string>
    var handlers: map<string, MockEndpoint>
    var preHooks: seq<PreHook>
    var postHooks: seq<PostHook>
    var warnings: seq<string>

    /** The state `handleRequest` reads. */
    function State(): (s: Snapshot)
      reads this
    {
      Snapshot(config, keys, handlers, preHooks, postHooks)
    }

    /** The registry invariant every public method keeps. */
    ghost predicate Valid()
      reads this
    {
      State().Valid()
    }

    /** `new AxiosMocker(options)`: the normalized configuration, no hooks,
        and the endpoints of the options loaded into an empty registry. */
    constructor(options: MockerOptions, dev: bool)
      ensures Valid()
      ensures config == NormalizeMockConfig(options.config)
      ensures keys == LoadKeys([], Entries(options.endpoints))
      ensures handlers == LoadHandlers(map[], Entries(options.endpoints))
      ensures preHooks == [] && postHooks == []
      ensures warnings == SourceWarnings([], options.endpoints, dev)
    {
      config := NormalizeMockConfig(options.config);
      keys := [];
      handlers := map[];
      preHooks := [];
      postHooks := [];
      warnings := [];
      new;
      LoadEndpoints(options.endpoints, dev);
    }

    /** `loadEndpoints(endpoints)`: add every entry of a `Map` or object in
        its enumeration order; warn (in development) about anything else. */
    method LoadEndpoints(src: EndpointsSource, dev: bool)
      requires Valid()
      modifies this
      ensures Valid()
      ensures keys == LoadKeys(old(keys), Entries(src))
      ensures handlers == LoadHandlers(old(handlers), Entries(src))
      ensures warnings == old(warnings) + SourceWarnings(old(keys), src, dev)
      ensures config == old(config) && preHooks == old(preHooks) && postHooks == old(postHooks)
    {
      if src.InvalidSource? {
        if dev {
          warnings := warnings + [WithPrefix(INVALID_ENDPOINTS_WARNING)];
        }
      } else {
        AddEntries(Entries(src), dev);
      }
    }

    /** The `for` loops of `loadEndpoints`: `addEndpoint` on each entry in turn. */
    method AddEntries(es: seq<Entry>, dev: bool)
      requires Valid()
      modifies this
      ensures Valid()
      ensures keys == LoadKeys(old(keys), es)
      ensures handlers == LoadHandlers(old(handlers), es)
      ensures warnings == old(warnings) + LoadWarnings(old(keys), es, dev)
      ensures config == old(config) && preHooks == old(preHooks) && postHooks == old(postHooks)
    {
      ghost var keys0, handlers0, warnings0 := keys, handlers, warnings;
      var i := 0;
      while i < |es|
        invariant 0 <= i <= |es|
        invariant Valid()
        invariant keys == LoadKeys(keys0, es[..i])
        invariant handlers == LoadHandlers(handlers0, es[..i])
        invariant warnings == warnings0 + LoadWarnings(keys0, es[..i], dev)
        invariant config == old(config) && preHooks == old(preHooks) && postHooks == old(postHooks)
      {
        ghost var keys1, handlers1, warnings1 := keys, handlers, warnings;
        AddEndpoint(es[i].0, es[i].1, dev);
        LoadStep(keys0, handlers0, warnings0, es, i, dev, keys1, handlers1, warnings1, keys, handlers, warnings);
        i := i + 1;
      }
      assert es[..|es|] == es;
    }

    /** `clearEndpoints()`: an empty registry. */
    method ClearEndpoints()
      modifies this
      ensures Valid()
      ensures keys == [] && handlers == map[]
      ensures config == old(config) && preHooks == old(preHooks) && postHooks == old(postHooks) && warnings == old(warnings)
    {
      keys := [];
      handlers := map[];
    }

    /** `setEndpoints(endpoints)`: replace the registry with the given endpoints. */
    method SetEndpoints(src: EndpointsSource, dev: bool)
      modifies this
      ensures Valid()
      ensures keys == LoadKeys([], Entries(src))
      ensures handlers == LoadHandlers(map[], Entries(src))
      ensures warnings == old(warnings) + SourceWarnings([], src, dev)
      ensures config == old(config) && preHooks == old(preHooks) && postHooks == old(postHooks)
    {
      ClearEndpoints();
      LoadEndpoints(src, dev);
    }

    /** `addEndpoints(endpoints)`: add the given endpoints to the registry. */
    method AddEndpoints(src: EndpointsSource, dev: bool)
      requires Valid()
      modifies this
      ensures Valid()
      ensures keys == LoadKeys(old(keys), Entries(src))
      ensures handlers == LoadHandlers(old(handlers), Entries(src))
      ensures warnings == old(warnings) + SourceWarnings(old(keys), src, dev)
      ensures config == old(config) && preHooks == old(preHooks) && postHooks == old(postHooks)
    {
      LoadEndpoints(src, dev);
    }

    /** `addEndpoint(endpoint, handler)`: register or replace a handler; a new
        key goes last, a known key keeps its place (and, in development, is
        reported as a duplicate). */
    method AddEndpoint(k: string, h: MockEndpoint, dev: bool)
      requires Valid()
      modifies this
      ensures Valid()
      ensures keys == Put(old(keys), k)
      ensures handlers == old(handlers)[k := h]
      ensures warnings == old(warnings) + DuplicateWarning(old(keys), k, dev)
      ensures config == old(config) && preHooks == old(preHooks) && postHooks == old(postHooks)
    {
      if dev && k in handlers {
        warnings := warnings + [WithPrefix("Duplicate endpoint: " + k)];
      }
      if k !in handlers {
        keys := keys + [k];
      }
      handlers := handlers[k := h];
    }

    /** `removeEndpoint(endpoint)`: drop the key, keeping the others in order;
        an unknown key changes nothing. */
    method RemoveEndpoint(k: string)
      requires Valid()
      modifies this
      ensures Valid()
      ensures keys == Remove(old(keys), k)
      ensures k in old(keys) ==> keys == old(keys)[..IndexOf(old(keys), k)] + old(keys)[IndexOf(old(keys), k) + 1..]
      ensures handlers == old(handlers) - {k}
      ensures config == old(config) && preHooks == old(preHooks) && postHooks == old(postHooks) && warnings == old(warnings)
    {
      if k in keys {
        RemoveAt(keys, IndexOf(keys, k));
      }
      keys := Remove(keys, k);
      handlers := handlers - {k};
    }

    /** `listEndpoints()`: the registered keys in insertion order, each once,
        exactly those with a handler. */
    method ListEndpoints() returns (r: seq<string>)
      requires Valid()
      ensures r == keys
      ensures Distinct(r)
      ensures forall x :: x in r <==> x in handlers
    {
      r := keys;
    }

    /** `getConfig()`. */
    method GetConfig() returns (c: NormalizedMockConfig)
      ensures c == config
    {
      c := config;
    }

    /** `updateConfig(config)`: the new configuration is the given one
        normalized against the defaults, not merged with the old one. */
    method UpdateConfig(c: MockConfig)
      requires Valid()
      modifies this
      ensures Valid()
      ensures config == NormalizeMockConfig(Some(c))
      ensures keys == old(keys) && handlers == old(handlers) && preHooks == old(preHooks)
      ensures postHooks == old(postHooks) && warnings == old(warnings)
    {
      config := NormalizeMockConfig(Some(c));
    }

    /** `addPreHook(hook)`: the hook runs after those already registered. */
    method AddPreHook(hook: PreHook)
      requires Valid()
      modifies this
      ensures Valid()
      ensures preHooks == old(preHooks) + [hook]
      ensures config == old(config) && keys == old(keys) && handlers == old(handlers)
      ensures postHooks == old(postHooks) && warnings == old(warnings)
    {
      preHooks := preHooks + [hook];
    }

    /** `addPostHook(hook)`: the hook runs after those already registered. */
    method AddPostHook(hook: PostHook)
      requires Valid()
      modifies this
      ensures Valid()
      ensures postHooks == old(postHooks) + [hook]
      ensures config == old(config) && keys == old(keys) && handlers == old(handlers)
      ensures preHooks == old(preHooks) && warnings == old(warnings)
    {
      postHooks := postHooks + [hook];
    }

    /** The route search of `handleRequest`, over the keys in insertion
        order: the first route of the request's method whose pattern matches
        wins, and a pattern that throws aborts the search. */
    method FindRoute(httpMethod: string, path: string, matcher: Matcher) returns (r: SearchResult)
      ensures r == Search(keys, httpMethod, path, matcher)
    {
      var i := 0;
      while i < |keys|
        invariant 0 <= i <= |keys|
        invariant Search(keys, httpMethod, path, matcher) == Search(keys[i..], httpMethod, path, matcher)
      {
        var key := keys[i];
        assert keys[i..][0] == key && keys[i..][1..] == keys[i + 1..];
        var (endpointMethod, endpointPath) := SplitKey(key);
        if Upper(endpointMethod) == httpMethod {
          match matcher(endpointPath, path)
          case Threw(t) =>
            return Failed(ThrownMessage(t, httpMethod, path));
          case Matched(ps) =>
            return Found(key, ps);
          case NoMatch =>
        }
        i := i + 1;
      }
      return NotFound;
    }

    /** `handleRequest(axiosConfig)`: the response or the thrown message, and
        the delay awaited, exactly as `Dispatch` describes them. */
    method HandleRequest(req: RequestWithMock, draw: real, matcher: Matcher, parse: JsonParser)
      returns (outcome: Result<Response>, waited: int)
      requires Valid()
      ensures Dispatched(outcome, waited) == Dispatch(State(), req, draw, matcher, parse)
    {
      var merged := MergeMockConfigs(config, req.mock);
      var failure := PreMatchFailure(merged, req.config.url, draw);
      if failure.Some? {
        return Err(failure.value), 0;
      }

      var httpMethod := RequestMethod(req);
      var path := RequestPath(req);

      var found := FindRoute(httpMethod, path, matcher);
      if found.Failed? {
        return Err(WithPrefix("Path matching failed: " + found.message)), 0;
      }
      if found.NotFound? {
        return Err(WithPrefix(NotFoundMessage(httpMethod, path))), 0;
      }
      var key := found.key;

      var delay := ChooseDelay(merged, req.config, key);
      if delay.Err? {
        return Err(delay.error), 0;
      }
      waited := if delay.value > 0 then delay.value else 0;
      outcome := ServeRoute(merged, key, found.params, req, parse);
    }

    /** The rest of `handleRequest` once the route is chosen and the delay
        awaited: build the mock request, run the pre-hooks, the handler and
        the post-hooks. */
    method ServeRoute(merged: NormalizedMockConfig, key: string, params: map<string, string>,
                      req: RequestWithMock, parse: JsonParser) returns (outcome: Result<Response>)
      requires key in handlers
      ensures outcome == Serve(merged, key, handlers[key], params, preHooks, postHooks, req, parse)
    {
      var body := req.config.data;
      if req.config.data.Str? {
        var parsed := parse(req.config.data.s);
        if parsed.Err? {
          return Err(parsed.error);
        }
        body := parsed.value;
      }
      var mockRequest := MockRequest(params, req.config.params.GetOr(map[]), body);

      var hooked := RunAll(preHooks, mockRequest, req);
      if hooked.Err? {
        return Err(hooked.error);
      }
      var handled := handlers[key](hooked.value, req);
      if handled.Err? {
        return Err(WithPrefix("Handler for " + key + " failed: " + handled.error));
      }
      outcome := RunAll(postHooks, Response(handled.value, 200, "OK", merged.headers, req), req);
    }
  }
}
