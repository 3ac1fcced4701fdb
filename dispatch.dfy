/** The dispatch state machine of `handleRequest` (src/axios-mocker.ts), as a
    specification function over a snapshot of the mocker's state: merge the
    configuration; fail if disabled, on a forced error, or on a random
    error; resolve method and path; search the routes; choose the delay;
    build the mock request; run the pre-hooks, the handler and the
    post-hooks. Each failure short-circuits the rest. */
module RequestDispatch {

  import opened Types
  import opened Strings
  import opened Logger
  import opened NormalizeConfig
  import opened Matching
  import opened Hooks
  import Registry

  /** The mocker's state as `handleRequest` reads it. */
  datatype Snapshot = Snapshot(
    config: NormalizedMockConfig,
    keys: seq<string>,
    handlers: map<string, MockEndpoint>,
    preHooks: seq<PreHook>,
    postHooks: seq<PostHook>)
  {
    /** The registry invariant: keys without duplicates, and exactly the handler map's keys. */
    ghost predicate Valid() {
      Registry.Distinct(keys) && forall k :: k in keys <==> k in handlers
    }
  }

  /** What one call produces: the response or the thrown message, and the
      delay it awaited (0 when it awaited none). */
  datatype Dispatched = Dispatched(outcome: Result<Response>, waited: int)

  /** `${message} (status: ${status})` with `status` defaulting to 500. */
  function ForcedErrorMessage(e: ErrorSpec): (r: string) {
    ShowOptional(e.message) + " (status: " + IntToString(e.status.GetOr(500)) + ")"
  }

  const RANDOM_ERROR: string := "Random mock error (status: 500)"

  /** The three checks made before any route is looked at, in their order. */
  function PreMatchFailure(merged: NormalizedMockConfig, url: Option<string>, draw: real): (r: Option<string>) {
    if !merged.enabled then Some(WithPrefix("Mocking is disabled for this request: " + ShowOptional(url)))
    else if merged.error.Some? then Some(WithPrefix(ForcedErrorMessage(merged.error.value)))
    else if merged.errorRate > 0.0 && draw < merged.errorRate then Some(WithPrefix(RANDOM_ERROR))
    else None
  }

  function NotFoundMessage(httpMethod: string, path: string): (r: string) {
    "No mock endpoint found for \"" + httpMethod + " " + path + "\""
  }

  /** `getDelay(axiosConfig, matchedKey)` when configured (which may throw),
      else the static delay. */
  function ChooseDelay(merged: NormalizedMockConfig, config: RequestConfig, key: string): (r: Result<int>) {
    if merged.getDelay.Some? then merged.getDelay.value(config, key) else Ok(merged.delay)
  }

  /** The mock request: the route's parameters, `params || {}` as the query, and
      the payload parsed when it is a string (a parse error escapes as is). */
  function BuildMockRequest(params: map<string, string>, config: RequestConfig, parse: JsonParser): (r: Result<MockRequest>) {
    var query := config.params.GetOr(map[]);
    match config.data
    case Str(s) =>
      (match parse(s)
       case Err(e) => Err(e)
       case Ok(body) => Ok(MockRequest(params, query, body)))
    case _ => Ok(MockRequest(params, query, config.data))
  }

  function BuildResponse(data: Value, merged: NormalizedMockConfig, req: RequestWithMock): (r: Response) {
    Response(data, 200, "OK", merged.headers, req)
  }

  /** Everything after the delay: request, pre-hooks, handler, response, post-hooks. */
  function Serve(merged: NormalizedMockConfig, key: string, handler: MockEndpoint, params: map<string, string>,
                 preHooks: seq<PreHook>, postHooks: seq<PostHook>, req: RequestWithMock, parse: JsonParser): (r: Result<Response>)
  {
    match BuildMockRequest(params, req.config, parse)
    case Err(e) => Err(e)
    case Ok(mockRequest) =>
      match RunHooks(preHooks, mockRequest, req)
      case Err(e) => Err(e)
      case Ok(hooked) =>
        match handler(hooked, req)
        case Err(m) => Err(WithPrefix("Handler for " + key + " failed: " + m))
        case Ok(data) => RunHooks(postHooks, BuildResponse(data, merged, req), req)
  }

  /** `handleRequest(axiosConfig)` on state `s`, with `draw` the value
      `Math.random()` would return, `matcher` the path-matching library and
      `parse` the JSON parser. */
  function Dispatch(s: Snapshot, req: RequestWithMock, draw: real, matcher: Matcher, parse: JsonParser): (r: Dispatched)
    requires forall k :: k in s.keys ==> k in s.handlers
  {
    var merged := MergeMockConfigs(s.config, req.mock);
    match PreMatchFailure(merged, req.config.url, draw)
    case Some(msg) => Dispatched(Err(msg), 0)
    case None =>
      var httpMethod := RequestMethod(req);
      var path := RequestPath(req);
      match Search(s.keys, httpMethod, path, matcher)
      case Failed(m) => Dispatched(Err(WithPrefix("Path matching failed: " + m)), 0)
      case NotFound => Dispatched(Err(WithPrefix(NotFoundMessage(httpMethod, path))), 0)
      case Found(key, params) =>
        match ChooseDelay(merged, req.config, key)
        case Err(e) => Dispatched(Err(e), 0)
        case Ok(delay) =>
          Dispatched(Serve(merged, key, s.handlers[key], params, s.preHooks, s.postHooks, req, parse),
                     if delay > 0 then delay else 0)
  }

  /** The method and path routes are matched against, for a request that passed the checks. */
  function RequestMethod(req: RequestWithMock): (r: string) {
    ResolveMethod(req.config.httpMethod)
  }

  function RequestPath(req: RequestWithMock): (r: string) {
    StripBase(req.config.url.GetOr(""), req.config.baseURL)
  }

  /** Disabled mocking fails first, naming the request URL, without delay. */
  lemma DisabledFails(s: Snapshot, req: RequestWithMock, draw: real, matcher: Matcher, parse: JsonParser)
    requires forall k :: k in s.keys ==> k in s.handlers
    requires !MergeMockConfigs(s.config, req.mock).enabled
    ensures Dispatch(s, req, draw, matcher, parse)
         == Dispatched(Err(WithPrefix("Mocking is disabled for this request: " + ShowOptional(req.config.url))), 0)
  {
  }

  /** Otherwise a configured error fails with its message and status (500 by default), without delay. */
  lemma ForcedErrorFails(s: Snapshot, req: RequestWithMock, draw: real, matcher: Matcher, parse: JsonParser, e: ErrorSpec)
    requires forall k :: k in s.keys ==> k in s.handlers
    requires MergeMockConfigs(s.config, req.mock).enabled
    requires MergeMockConfigs(s.config, req.mock).error == Some(e)
    ensures Dispatch(s, req, draw, matcher, parse)
         == Dispatched(Err(WithPrefix(ShowOptional(e.message) + " (status: " + IntToString(e.status.GetOr(500)) + ")")), 0)
  {
  }

  /** Otherwise a draw below a positive error rate fails with the random error, without delay. */
  lemma RandomErrorFails(s: Snapshot, req: RequestWithMock, draw: real, matcher: Matcher, parse: JsonParser)
    requires forall k :: k in s.keys ==> k in s.handlers
    requires var merged := MergeMockConfigs(s.config, req.mock);
      merged.enabled && merged.error.None? && merged.errorRate > 0.0 && draw < merged.errorRate
    ensures Dispatch(s, req, draw, matcher, parse) == Dispatched(Err(WithPrefix(RANDOM_ERROR)), 0)
  {
  }

  /** The draw matters only through the random-error test: two draws that
      both pass it give the same dispatch. */
  lemma DrawOnlyDecidesRandomError(s: Snapshot, req: RequestWithMock, d1: real, d2: real, matcher: Matcher, parse: JsonParser)
    requires forall k :: k in s.keys ==> k in s.handlers
    requires var rate := MergeMockConfigs(s.config, req.mock).errorRate;
      !(rate > 0.0 && d1 < rate) && !(rate > 0.0 && d2 < rate)
    ensures Dispatch(s, req, d1, matcher, parse) == Dispatch(s, req, d2, matcher, parse)
  {
  }

  /** With an error rate of 0 the draw never matters, so no random error can occur. */
  lemma ZeroErrorRateIgnoresDraw(s: Snapshot, req: RequestWithMock, d1: real, d2: real, matcher: Matcher, parse: JsonParser)
    requires forall k :: k in s.keys ==> k in s.handlers
    requires MergeMockConfigs(s.config, req.mock).errorRate <= 0.0
    ensures Dispatch(s, req, d1, matcher, parse) == Dispatch(s, req, d2, matcher, parse)
  {
    DrawOnlyDecidesRandomError(s, req, d1, d2, matcher, parse);
  }

  /** After the checks, a pattern that throws fails the request, without delay. */
  lemma PatternErrorFails(s: Snapshot, req: RequestWithMock, draw: real, matcher: Matcher, parse: JsonParser, m: string)
    requires forall k :: k in s.keys ==> k in s.handlers
    requires PreMatchFailure(MergeMockConfigs(s.config, req.mock), req.config.url, draw).None?
    requires Search(s.keys, RequestMethod(req), RequestPath(req), matcher) == Failed(m)
    ensures Dispatch(s, req, draw, matcher, parse) == Dispatched(Err(WithPrefix("Path matching failed: " + m)), 0)
  {
  }

  /** After the checks, a search that finds no route fails naming method and path, without delay. */
  lemma NoRouteFails(s: Snapshot, req: RequestWithMock, draw: real, matcher: Matcher, parse: JsonParser)
    requires forall k :: k in s.keys ==> k in s.handlers
    requires PreMatchFailure(MergeMockConfigs(s.config, req.mock), req.config.url, draw).None?
    requires Search(s.keys, RequestMethod(req), RequestPath(req), matcher) == NotFound
    ensures Dispatch(s, req, draw, matcher, parse)
         == Dispatched(Err(WithPrefix("No mock endpoint found for \"" + RequestMethod(req) + " " + RequestPath(req) + "\"")), 0)
  {
  }

  /** On a matched route the chosen delay is awaited when positive and the
      matched handler serves the request; a `getDelay` that throws fails the
      request with its own error, before any wait. */
  lemma MatchedRouteServes(s: Snapshot, req: RequestWithMock, draw: real, matcher: Matcher, parse: JsonParser,
                           key: string, params: map<string, string>)
    requires forall k :: k in s.keys ==> k in s.handlers
    requires PreMatchFailure(MergeMockConfigs(s.config, req.mock), req.config.url, draw).None?
    requires Search(s.keys, RequestMethod(req), RequestPath(req), matcher) == Found(key, params)
    ensures key in s.handlers
    ensures var merged := MergeMockConfigs(s.config, req.mock);
      var delay := if merged.getDelay.Some? then merged.getDelay.value(req.config, key) else Ok(merged.delay);
      Dispatch(s, req, draw, matcher, parse)
        == if delay.Err? then Dispatched(Err(delay.error), 0)
           else Dispatched(Serve(merged, key, s.handlers[key], params, s.preHooks, s.postHooks, req, parse),
                           if delay.value > 0 then delay.value else 0)
  {
  }

  /** Only a request that reached a route can have waited: every failure
      before matching returns at once. */
  lemma WaitOnlyAfterMatch(s: Snapshot, req: RequestWithMock, draw: real, matcher: Matcher, parse: JsonParser)
    requires forall k :: k in s.keys ==> k in s.handlers
    ensures Dispatch(s, req, draw, matcher, parse).waited >= 0
    ensures Dispatch(s, req, draw, matcher, parse).waited != 0 ==>
      PreMatchFailure(MergeMockConfigs(s.config, req.mock), req.config.url, draw).None?
      && Search(s.keys, RequestMethod(req), RequestPath(req), matcher).Found?
  {
  }

  /** The mock request carries the route parameters, `params || {}` as its
      query (no query parsed from the URL), and the payload, parsed only when
      it is a string. */
  lemma MockRequestContents(params: map<string, string>, config: RequestConfig, parse: JsonParser)
    ensures config.data.Str? && parse(config.data.s).Err? ==> BuildMockRequest(params, config, parse) == Err(parse(config.data.s).error)
    ensures BuildMockRequest(params, config, parse).Ok? ==>
      var r := BuildMockRequest(params, config, parse).value;
      && r.params == params
      && r.query == (if config.params.Some? then config.params.value else map[])
      && r.body == (if config.data.Str? then parse(config.data.s).value else config.data)
  {
  }

  /** The pre-hooks see the mock request and their result is what the
      handler receives; the handler's data becomes a 200 "OK" response with
      the merged headers, which the post-hooks then transform. */
  lemma ServeSucceeds(merged: NormalizedMockConfig, key: string, handler: MockEndpoint, params: map<string, string>,
                      preHooks: seq<PreHook>, postHooks: seq<PostHook>, req: RequestWithMock, parse: JsonParser,
                      mockRequest: MockRequest, hooked: MockRequest, data: Value)
    requires BuildMockRequest(params, req.config, parse) == Ok(mockRequest)
    requires RunHooks(preHooks, mockRequest, req) == Ok(hooked)
    requires handler(hooked, req) == Ok(data)
    ensures Serve(merged, key, handler, params, preHooks, postHooks, req, parse)
         == RunHooks(postHooks, Response(data, 200, "OK", merged.headers, req), req)
    ensures postHooks == [] ==>
      Serve(merged, key, handler, params, preHooks, postHooks, req, parse) == Ok(Response(data, 200, "OK", merged.headers, req))
  {
  }

  /** A handler failure is reported with the route key and the original message. */
  lemma HandlerFailureWrapped(merged: NormalizedMockConfig, key: string, handler: MockEndpoint, params: map<string, string>,
                              preHooks: seq<PreHook>, postHooks: seq<PostHook>, req: RequestWithMock, parse: JsonParser,
                              mockRequest: MockRequest, hooked: MockRequest, m: string)
    requires BuildMockRequest(params, req.config, parse) == Ok(mockRequest)
    requires RunHooks(preHooks, mockRequest, req) == Ok(hooked)
    requires handler(hooked, req) == Err(m)
    ensures Serve(merged, key, handler, params, preHooks, postHooks, req, parse)
         == Err(WithPrefix("Handler for " + key + " failed: " + m))
  {
  }

  /** A failing pre-hook propagates its own error unchanged, and the handler never runs. */
  lemma PreHookFailurePropagates(merged: NormalizedMockConfig, key: string, handler: MockEndpoint, params: map<string, string>,
                                 preHooks: seq<PreHook>, postHooks: seq<PostHook>, req: RequestWithMock, parse: JsonParser,
                                 mockRequest: MockRequest, e: string)
    requires BuildMockRequest(params, req.config, parse) == Ok(mockRequest)
    requires RunHooks(preHooks, mockRequest, req) == Err(e)
    ensures Serve(merged, key, handler, params, preHooks, postHooks, req, parse) == Err(e)
  {
  }
}
