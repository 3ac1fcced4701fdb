/** Worked examples of `Dispatch` on the route examples of
    __tests__/axios-mocker.spec.ts, with the segment matcher of `PathPattern`
    standing in for the path-matching library. */
module Scenarios {

  import opened Types
  import opened Strings
  import opened Logger
  import opened NormalizeConfig
  import opened Matching
  import opened PathPattern
  import opened RequestDispatch

  /** `{ enabled: true }`, normalized. */
  const ENABLED: NormalizedMockConfig := NormalizeMockConfig(Some(EMPTY_MOCK_CONFIG.(enabled := Some(true))))

  /** A request as the tests build it: method `GET`, base URL `http://localhost:3000`. */
  function TestRequest(url: string): (r: RequestWithMock) {
    RequestWithMock(RequestConfig(Some("GET"), Some(url), Some("http://localhost:3000"), None, Undefined), NoOverride)
  }

  lemma GetIsUpperCase()
    ensures ResolveMethod(Some("GET")) == "GET"
    ensures Upper("GET") == "GET"
  {
    assert Upper("GET")[0] == 'G' && Upper("GET")[1] == 'E' && Upper("GET")[2] == 'T';
  }

  /** A base URL that is not a prefix of the URL is not stripped. */
  lemma LocalhostNotStripped(url: string)
    requires |url| > 0 && url[0] == '/'
    ensures RequestPath(TestRequest(url)) == url
  {
    assert "http://localhost:3000"[0] != url[0];
  }

  lemma KeyUsers()
    ensures SplitKey("GET /api/users") == ("GET", Some("/api/users"))
  {
    assert "GET /api/users" == "GET" + " " + "/api/users";
    assert ' ' !in "GET" && ' ' !in "/api/users";
    SplitKeyPieces("GET", "/api/users", "");
  }

  lemma KeyUsersId()
    ensures SplitKey("GET /api/users/:id") == ("GET", Some("/api/users/:id"))
  {
    assert "GET /api/users/:id" == "GET" + " " + "/api/users/:id";
    assert ' ' !in "GET" && ' ' !in "/api/users/:id";
    SplitKeyPieces("GET", "/api/users/:id", "");
  }

  lemma KeyPostsQuestion()
    ensures SplitKey("GET /api/posts/?id") == ("GET", Some("/api/posts/?id"))
  {
    assert "GET /api/posts/?id" == "GET" + " " + "/api/posts/?id";
    assert ' ' !in "GET" && ' ' !in "/api/posts/?id";
    SplitKeyPieces("GET", "/api/posts/?id", "");
  }

  lemma ApiUsersMatches()
    ensures SimpleMatch(Some("/api/users"), "/api/users") == Matched(map[])
  {
    var ps: seq<string> := ["", "api", "users"];
    assert Join(ps, '/') == "/api/users";
    assert '/' !in ps[1] && '?' !in ps[1] && '/' !in ps[2] && '?' !in ps[2];
    assert !IsParam(ps[0]) && !IsParam(ps[1]) && !IsParam(ps[2]);
    StaticPatternMatchesItself(ps);
  }

  lemma ExampleBaseStripped()
    ensures StripBase("http://api.example.com/api/users", Some("http://api.example.com")) == "/api/users"
  {
    var base, url := "http://api.example.com", "http://api.example.com/api/users";
    assert url == base + "/api/users";
  }

  /** The request of the base-URL example. */
  function BaseUrlRequest(): (r: RequestWithMock) {
    RequestWithMock(
      RequestConfig(Some("GET"), Some("http://api.example.com/api/users"), Some("http://api.example.com"), None, Undefined),
      NoOverride)
  }

  lemma BaseUrlRouted(h: MockEndpoint, draw: real, parse: JsonParser)
    ensures var s := Snapshot(ENABLED, ["GET /api/users"], map["GET /api/users" := h], [], []);
      Dispatch(s, BaseUrlRequest(), draw, SimpleMatch, parse)
        == Dispatched(Serve(ENABLED, "GET /api/users", h, map[], [], [], BaseUrlRequest(), parse), 0)
  {
    var s := Snapshot(ENABLED, ["GET /api/users"], map["GET /api/users" := h], [], []);
    var req := BaseUrlRequest();
    GetIsUpperCase();
    ExampleBaseStripped();
    assert RequestPath(req) == "/api/users";
    UsersFound();
    EnabledPasses(req.config.url, draw);
    MatchedRouteServes(s, req, draw, SimpleMatch, parse, "GET /api/users", map[]);
  }

  /** The base URL is sliced off a URL it prefixes, and the route matches the
      rest: the handler's data comes back as a 200 "OK" response, without delay. */
  lemma BaseUrlSliced(h: MockEndpoint, v: Value, draw: real, parse: JsonParser)
    requires h(MockRequest(map[], map[], Undefined), BaseUrlRequest()) == Ok(v)
    ensures var s := Snapshot(ENABLED, ["GET /api/users"], map["GET /api/users" := h], [], []);
      Dispatch(s, BaseUrlRequest(), draw, SimpleMatch, parse) == Dispatched(Ok(Response(v, 200, "OK", map[], BaseUrlRequest())), 0)
  {
    BaseUrlRouted(h, draw, parse);
    var mr := MockRequest(map[], map[], Undefined);
    ServeSucceeds(ENABLED, "GET /api/users", h, map[], [], [], BaseUrlRequest(), parse, mr, mr, v);
  }

  /** `GET /api/users/:id` serves `/api/users/1` with the parameter `id` bound to "1". */
  lemma ParameterBound()
    ensures Search(["GET /api/users/:id"], "GET", "/api/users/1", SimpleMatch) == Found("GET /api/users/:id", map["id" := "1"])
  {
    GetIsUpperCase();
    KeyUsersId();
    UsersIdExample();
  }

  /** The handler of `GET /api/users/:id` receives `{ id: "1" }` as its
      parameters for `/api/users/1`, and its data is the response's. */
  lemma ParametersReachHandler(h: MockEndpoint, v: Value, draw: real, parse: JsonParser)
    requires h(MockRequest(map["id" := "1"], map[], Undefined), TestRequest("/api/users/1")) == Ok(v)
    ensures var s := Snapshot(ENABLED, ["GET /api/users/:id"], map["GET /api/users/:id" := h], [], []);
      Dispatch(s, TestRequest("/api/users/1"), draw, SimpleMatch, parse)
        == Dispatched(Ok(Response(v, 200, "OK", map[], TestRequest("/api/users/1"))), 0)
  {
    var s := Snapshot(ENABLED, ["GET /api/users/:id"], map["GET /api/users/:id" := h], [], []);
    var req := TestRequest("/api/users/1");
    GetIsUpperCase();
    LocalhostNotStripped("/api/users/1");
    ParameterBound();
    EnabledPasses(req.config.url, draw);
    MatchedRouteServes(s, req, draw, SimpleMatch, parse, "GET /api/users/:id", map["id" := "1"]);
  }

  lemma UsersFound()
    ensures Search(["GET /api/users"], "GET", "/api/users", SimpleMatch) == Found("GET /api/users", map[])
  {
    GetIsUpperCase();
    KeyUsers();
    ApiUsersMatches();
  }

  /** `{ enabled: true, delay: 300 }`: a matched request waits 300 ms. */
  lemma StaticDelayAwaited(h: MockEndpoint, draw: real, parse: JsonParser)
    ensures var s := Snapshot(NormalizeMockConfig(Some(EMPTY_MOCK_CONFIG.(enabled := Some(true), delay := Some(300)))),
                              ["GET /api/users"], map["GET /api/users" := h], [], []);
      Dispatch(s, TestRequest("/api/users"), draw, SimpleMatch, parse).waited == 300
  {
    var s := Snapshot(NormalizeMockConfig(Some(EMPTY_MOCK_CONFIG.(enabled := Some(true), delay := Some(300)))),
                      ["GET /api/users"], map["GET /api/users" := h], [], []);
    var req := TestRequest("/api/users");
    GetIsUpperCase();
    LocalhostNotStripped("/api/users");
    UsersFound();
    MatchedRouteServes(s, req, draw, SimpleMatch, parse, "GET /api/users", map[]);
  }

  /** `updateConfig({ getDelay: () => 300 })`: the function decides the wait,
      and the static delay is not consulted. */
  lemma DelayFunctionAwaited(h: MockEndpoint, draw: real, parse: JsonParser)
    ensures var getDelay: DelayFn := (c: RequestConfig, k: string) => Ok(300);
      var s := Snapshot(NormalizeMockConfig(Some(EMPTY_MOCK_CONFIG.(getDelay := Some(getDelay)))),
                        ["GET /api/users"], map["GET /api/users" := h], [], []);
      Dispatch(s, TestRequest("/api/users"), draw, SimpleMatch, parse).waited == 300
  {
    var getDelay: DelayFn := (c: RequestConfig, k: string) => Ok(300);
    var s := Snapshot(NormalizeMockConfig(Some(EMPTY_MOCK_CONFIG.(getDelay := Some(getDelay)))),
                      ["GET /api/users"], map["GET /api/users" := h], [], []);
    var req := TestRequest("/api/users");
    GetIsUpperCase();
    LocalhostNotStripped("/api/users");
    UsersFound();
    MatchedRouteServes(s, req, draw, SimpleMatch, parse, "GET /api/users", map[]);
  }

  lemma EnabledPasses(url: Option<string>, draw: real)
    ensures PreMatchFailure(MergeMockConfigs(ENABLED, NoOverride), url, draw).None?
  {
    assert ENABLED.enabled && ENABLED.error.None? && ENABLED.errorRate == 0.0;
  }

  lemma PostsNotFound()
    ensures Search(["GET /api/users/:id"], "GET", "/api/posts/1", SimpleMatch) == NotFound
  {
    GetIsUpperCase();
    KeyUsersId();
    UsersIdExample();
  }

  /** A route whose pattern matches no request path gives "No mock endpoint found". */
  lemma NoMatchingRoute(draw: real, parse: JsonParser, h: MockEndpoint)
    ensures var s := Snapshot(ENABLED, ["GET /api/users/:id"], map["GET /api/users/:id" := h], [], []);
      Dispatch(s, TestRequest("/api/posts/1"), draw, SimpleMatch, parse)
        == Dispatched(Err(WithPrefix(NotFoundMessage("GET", "/api/posts/1"))), 0)
  {
    var s := Snapshot(ENABLED, ["GET /api/users/:id"], map["GET /api/users/:id" := h], [], []);
    var req := TestRequest("/api/posts/1");
    GetIsUpperCase();
    LocalhostNotStripped("/api/posts/1");
    PostsNotFound();
    EnabledPasses(req.config.url, draw);
    NoRouteFails(s, req, draw, SimpleMatch, parse);
  }

  lemma QuestionSearchFails()
    ensures Search(["GET /api/posts/?id"], "GET", "/api/users/1", SimpleMatch)
         == Failed("invalid pattern: " + "/api/posts/?id")
  {
    GetIsUpperCase();
    KeyPostsQuestion();
    QuestionMarkExample();
  }

  /** A pattern the matcher rejects fails the request with "Path matching failed". */
  lemma PatternRejected(draw: real, parse: JsonParser, h: MockEndpoint)
    ensures var s := Snapshot(ENABLED, ["GET /api/posts/?id"], map["GET /api/posts/?id" := h], [], []);
      Dispatch(s, TestRequest("/api/users/1"), draw, SimpleMatch, parse)
        == Dispatched(Err(WithPrefix("Path matching failed: " + ("invalid pattern: " + "/api/posts/?id"))), 0)
  {
    var s := Snapshot(ENABLED, ["GET /api/posts/?id"], map["GET /api/posts/?id" := h], [], []);
    var req := TestRequest("/api/users/1");
    GetIsUpperCase();
    LocalhostNotStripped("/api/users/1");
    QuestionSearchFails();
    EnabledPasses(req.config.url, draw);
    PatternErrorFails(s, req, draw, SimpleMatch, parse, "invalid pattern: " + "/api/posts/?id");
  }

  /** `updateConfig({ enabled: false })` then a request: mocking is disabled. */
  lemma DisabledScenario(keys: seq<string>, handlers: map<string, MockEndpoint>, draw: real, parse: JsonParser)
    requires forall k :: k in keys ==> k in handlers
    ensures var s := Snapshot(NormalizeMockConfig(Some(EMPTY_MOCK_CONFIG.(enabled := Some(false)))), keys, handlers, [], []);
      Dispatch(s, TestRequest("/api/users"), draw, SimpleMatch, parse)
        == Dispatched(Err(WithPrefix("Mocking is disabled for this request: " + "/api/users")), 0)
  {
  }

  /** `updateConfig({ errorRate: 0.5 })` with `Math.random()` at 0.1: the random error. */
  lemma RandomErrorScenario(keys: seq<string>, handlers: map<string, MockEndpoint>, parse: JsonParser)
    requires forall k :: k in keys ==> k in handlers
    ensures var s := Snapshot(NormalizeMockConfig(Some(EMPTY_MOCK_CONFIG.(errorRate := Some(0.5)))), keys, handlers, [], []);
      Dispatch(s, TestRequest(""), 0.1, SimpleMatch, parse)
        == Dispatched(Err(WithPrefix("Random mock error (status: 500)")), 0)
  {
  }

  lemma Status500Rendered()
    ensures IntToString(500) == "500"
  {
    assert NatToString(5) == "5";
    assert NatToString(50) == "5" + "0";
    assert NatToString(500) == "5" + "0" + "0";
  }

  /** `updateConfig({ error: { status: 500, message: 'Internal Server Error' } })`
      then a request: the forced error, naming its message and status. */
  lemma ForcedErrorScenario(keys: seq<string>, handlers: map<string, MockEndpoint>, draw: real, parse: JsonParser)
    requires forall k :: k in keys ==> k in handlers
    ensures var e := ErrorSpec(Some(500), Some("Internal Server Error"), None);
      var s := Snapshot(NormalizeMockConfig(Some(EMPTY_MOCK_CONFIG.(error := Some(e)))), keys, handlers, [], []);
      Dispatch(s, TestRequest(""), draw, SimpleMatch, parse)
        == Dispatched(Err(WithPrefix("Internal Server Error" + " (status: " + "500" + ")")), 0)
  {
    Status500Rendered();
  }

  /** A `getDelay` that throws rejects the matched request with its own
      error, and nothing is awaited. */
  lemma DelayFunctionThrows(h: MockEndpoint, draw: real, parse: JsonParser, m: string)
    ensures var getDelay: DelayFn := (c: RequestConfig, k: string) => Err(m);
      var s := Snapshot(NormalizeMockConfig(Some(EMPTY_MOCK_CONFIG.(getDelay := Some(getDelay)))),
                        ["GET /api/users"], map["GET /api/users" := h], [], []);
      Dispatch(s, TestRequest("/api/users"), draw, SimpleMatch, parse) == Dispatched(Err(m), 0)
  {
    var getDelay: DelayFn := (c: RequestConfig, k: string) => Err(m);
    var s := Snapshot(NormalizeMockConfig(Some(EMPTY_MOCK_CONFIG.(getDelay := Some(getDelay)))),
                      ["GET /api/users"], map["GET /api/users" := h], [], []);
    var req := TestRequest("/api/users");
    GetIsUpperCase();
    LocalhostNotStripped("/api/users");
    UsersFound();
    MatchedRouteServes(s, req, draw, SimpleMatch, parse, "GET /api/users", map[]);
  }
}
