/** Data model of the mock plugin: the values that flow through the mocker
    (src/types.ts), plus the small Option/Result wrappers the model uses for
    absent fields and for thrown errors. */
module Types {

  /** An optional field: `None` is an absent (or `undefined`) property. */
  datatype Option<+T> = None | Some(value: T) {

    /** The value, or `default` when absent (JavaScript's `??`). */
    function GetOr(default: T): (v: T) {
      if Some? then value else default
    }
  }

  /** Either a value, or the message of the error that was thrown. */
  datatype Result<+T> = Ok(value: T) | Err(error: string)

  /** A JavaScript value as seen by handlers, hooks and the request body. */
  datatype Value =
    | Undefined
    | Null
    | Bool(b: bool)
    | Number(n: real)
    | Str(s: string)
    | Array(items: seq<Value>)
    | Object(fields: map<string, Value>)

  /** The `error` field of a mock configuration: a forced failure. */
  datatype ErrorSpec = ErrorSpec(status: Option<int>, message: Option<string>, details: Option<seq<Value>>)

  /** The fields of the outgoing axios request that the mocker reads. */
  datatype RequestConfig = RequestConfig(
    httpMethod: Option<string>,  // axios `method`
    url: Option<string>,
    baseURL: Option<string>,
    params: Option<map<string, Value>>,
    data: Value)

  /** `getDelay(axiosConfig, endpoint)`: a delay computed from the request and
      the matched route key, or the message of what it threw. */
  type DelayFn = (RequestConfig, string) -> Result<int>

  /** `Partial<MockConfig>`: every field may be absent. */
  datatype MockConfig = MockConfig(
    enabled: Option<bool>,
    delay: Option<int>,
    errorRate: Option<real>,
    headers: Option<map<string, string>>,
    error: Option<ErrorSpec>,
    getDelay: Option<DelayFn>,
    enableLogging: Option<bool>)

  /** The fully populated configuration; only `error` and `getDelay` stay optional. */
  datatype NormalizedMockConfig = NormalizedMockConfig(
    enabled: bool,
    delay: int,
    errorRate: real,
    headers: map<string, string>,
    error: Option<ErrorSpec>,
    getDelay: Option<DelayFn>,
    enableLogging: bool)

  /** The per-request `mock` property, by the runtime kind of its value:
      absent, a boolean, an object (an array counts as an object with no
      configuration fields), or anything else (`null`, a number, a string). */
  datatype MockOverride = NoOverride | Flag(on: bool) | Overrides(partial: MockConfig) | OtherValue

  /** `AxiosRequestConfigWithMock`: the outgoing request and its `mock` property. */
  datatype RequestWithMock = RequestWithMock(config: RequestConfig, mock: MockOverride)

  /** The structured request handed to pre-hooks and to the handler. */
  datatype MockRequest = MockRequest(params: map<string, string>, query: map<string, Value>, body: Value)

  /** The synthesised axios response. */
  datatype Response = Response(
    data: Value,
    status: int,
    statusText: string,
    headers: map<string, string>,
    config: RequestWithMock)

  /** A mock handler: produces the response data, or throws (an error message). */
  type MockEndpoint = (MockRequest, RequestWithMock) -> Result<Value>

  /** A pre-hook may change the request in flight, or throw. */
  type PreHook = (MockRequest, RequestWithMock) -> Result<MockRequest>

  /** A post-hook may change the response in flight, or throw. */
  type PostHook = (Response, RequestWithMock) -> Result<Response>

  /** What a matcher compiled by `match(pattern)` and applied to a path threw. */
  datatype Thrown = ErrorThrown(message: string) | OtherThrown

  /** Outcome of compiling a route pattern (absent when the key has no space)
      and applying it to a path. */
  datatype MatchOutcome = Threw(thrown: Thrown) | NoMatch | Matched(params: map<string, string>)

  /** The path-matching library, as an oracle. */
  type Matcher = (Option<string>, string) -> MatchOutcome

  /** `JSON.parse`, as an oracle: a value, or the message of the SyntaxError. */
  type JsonParser = string -> Result<Value>

  /** One `[key, handler]` entry of a bulk-loaded endpoints source. */
  type Entry = (string, MockEndpoint)

  /** The `endpoints` argument of a bulk load, by runtime kind: falsy, a
      `Map` (entries in insertion order), a plain object (entries in
      `Object.keys` order), or any other truthy value. */
  datatype EndpointsSource = NoEndpoints | MapSource(entries: seq<Entry>) | ObjectSource(entries: seq<Entry>) | InvalidSource

  /** `AxiosMockerOptions`; an omitted options object is `MockerOptions(NoEndpoints, None)`. */
  datatype MockerOptions = MockerOptions(endpoints: EndpointsSource, config: Option<MockConfig>)
}
