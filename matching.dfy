/** Route matching (src/axios-mocker.ts, the first half of `handleRequest`):
    resolving the method and the path of the outgoing request, splitting
    route keys into method and pattern, and the first-match search over the
    registry in insertion order. Pattern compilation is the `Matcher` oracle. */
module Matching {

  import opened Types
  import opened Strings

  /** `const [endpointMethod, endpointPath] = key.split(' ')`: the first two
      pieces; the pattern is absent when the key has no space. */
  function SplitKey(key: string): (r: (string, Option<string>)) {
    var pieces := Split(key, ' ');
    (pieces[0], if |pieces| > 1 then Some(pieces[1]) else None)
  }

  /** A key `"METHOD pattern"` splits into its method and pattern, and anything
      after a second space is dropped; a key without a space has no pattern. */
  lemma SplitKeyPieces(m: string, p: string, rest: string)
    requires ' ' !in m && ' ' !in p
    ensures SplitKey(m) == (m, None)
    ensures SplitKey(m + " " + p) == (m, Some(p))
    ensures SplitKey(m + " " + p + " " + rest) == (m, Some(p))
  {
    SplitWhole(m, ' ');
    SplitWhole(p, ' ');
    SplitAtFirst(m, ' ', p);
    SplitAtFirst(m, ' ', p + " " + rest);
    SplitAtFirst(p, ' ', rest);
    assert m + " " + p + " " + rest == m + [' '] + (p + [' '] + rest);
  }

  /** `(axiosConfig.method || 'GET').toUpperCase()`. */
  function ResolveMethod(httpMethod: Option<string>): (r: string)
    ensures httpMethod.Some? && httpMethod.value != "" ==> r == Upper(httpMethod.value)
    ensures !(httpMethod.Some? && httpMethod.value != "") ==> r == "GET"
    ensures |r| > 0
    ensures Upper(r) == r
  {
    UpperIdempotent(if httpMethod.Some? && httpMethod.value != "" then httpMethod.value else "GET");
    Upper(if httpMethod.Some? && httpMethod.value != "" then httpMethod.value else "GET")
  }

  /** The path the routes are matched against: `url` without `baseURL` when
      `baseURL` is non-empty and a prefix of `url`, else `url` itself. */
  function StripBase(url: string, baseURL: Option<string>): (path: string)
    ensures baseURL.Some? && baseURL.value != "" && baseURL.value <= url ==> baseURL.value + path == url
    ensures !(baseURL.Some? && baseURL.value != "" && baseURL.value <= url) ==> path == url
  {
    if baseURL.Some? && baseURL.value != "" && baseURL.value <= url then url[|baseURL.value|..] else url
  }

  /** Whether a route key's method part, upper-cased, is the request's method. */
  predicate MethodMatches(key: string, httpMethod: string) {
    Upper(SplitKey(key).0) == httpMethod
  }

  /** A route the search passes over: another method, or a pattern that compiles and does not match. */
  predicate Skipped(key: string, httpMethod: string, path: string, matcher: Matcher) {
    !MethodMatches(key, httpMethod) || matcher(SplitKey(key).1, path).NoMatch?
  }

  /** The thrown value's message, or the fallback text for a non-Error throw. */
  function ThrownMessage(t: Thrown, httpMethod: string, path: string): (r: string) {
    match t
    case ErrorThrown(m) => m
    case OtherThrown => "The endpoint \"" + httpMethod + " " + path + "\" is invalid."
  }

  /** Result of the route search: the matched key and its parameters, no match,
      or the message of a pattern that threw. */
  datatype SearchResult = Found(key: string, params: map<string, string>) | NotFound | Failed(message: string)

  /** What the search concludes at a route it does not pass over. */
  function Decide(key: string, httpMethod: string, path: string, matcher: Matcher): (r: SearchResult) {
    match matcher(SplitKey(key).1, path)
    case Threw(t) => Failed(ThrownMessage(t, httpMethod, path))
    case NoMatch => NotFound
    case Matched(ps) => Found(key, ps)
  }

  /** The `for ... of this.endpoints` loop of `handleRequest`, as a function of
      the keys in insertion order. */
  function Search(keys: seq<string>, httpMethod: string, path: string, matcher: Matcher): (r: SearchResult)
    ensures r.Found? ==> r.key in keys && MethodMatches(r.key, httpMethod) && matcher(SplitKey(r.key).1, path) == Matched(r.params)
    decreases |keys|
  {
    if keys == [] then NotFound
    else if Skipped(keys[0], httpMethod, path, matcher) then Search(keys[1..], httpMethod, path, matcher)
    else Decide(keys[0], httpMethod, path, matcher)
  }

  /** Routes the search passes over do not influence it. */
  lemma {:induction false} SearchSkipsPrefix(keys: seq<string>, i: nat, httpMethod: string, path: string, matcher: Matcher)
    requires i <= |keys|
    requires forall j :: 0 <= j < i ==> Skipped(keys[j], httpMethod, path, matcher)
    ensures Search(keys, httpMethod, path, matcher) == Search(keys[i..], httpMethod, path, matcher)
    decreases i
  {
    if i > 0 {
      assert Skipped(keys[0], httpMethod, path, matcher);
      assert keys[1..][i - 1..] == keys[i..];
      SearchSkipsPrefix(keys[1..], i - 1, httpMethod, path, matcher);
    }
  }

  /** The first route (in insertion order) that is not passed over decides the
      search: a match wins over every later route, and a pattern that throws
      aborts the search even if a later route would match. */
  lemma FirstDecisive(keys: seq<string>, i: nat, httpMethod: string, path: string, matcher: Matcher)
    requires i < |keys|
    requires forall j :: 0 <= j < i ==> Skipped(keys[j], httpMethod, path, matcher)
    requires !Skipped(keys[i], httpMethod, path, matcher)
    ensures Search(keys, httpMethod, path, matcher) == Decide(keys[i], httpMethod, path, matcher)
  {
    SearchSkipsPrefix(keys, i, httpMethod, path, matcher);
  }

  /** The search finds nothing exactly when it passes over every route. */
  lemma {:induction false} NotFoundIff(keys: seq<string>, httpMethod: string, path: string, matcher: Matcher)
    ensures Search(keys, httpMethod, path, matcher) == NotFound
        <==> forall j :: 0 <= j < |keys| ==> Skipped(keys[j], httpMethod, path, matcher)
    decreases |keys|
  {
    if keys != [] {
      NotFoundIff(keys[1..], httpMethod, path, matcher);
      if !Skipped(keys[0], httpMethod, path, matcher) {
        assert !matcher(SplitKey(keys[0]).1, path).NoMatch?;
      } else {
        assert forall j :: 1 <= j < |keys| ==> keys[j] == keys[1..][j - 1];
      }
    }
  }

  /** When the search concludes something, some route decided it, and every
      route before that one was passed over. */
  lemma {:induction false} DecidedByFirst(keys: seq<string>, httpMethod: string, path: string, matcher: Matcher)
    requires Search(keys, httpMethod, path, matcher) != NotFound
    ensures exists i :: (0 <= i < |keys| && !Skipped(keys[i], httpMethod, path, matcher)
      && (forall j :: 0 <= j < i ==> Skipped(keys[j], httpMethod, path, matcher))
      && Search(keys, httpMethod, path, matcher) == Decide(keys[i], httpMethod, path, matcher))
    decreases |keys|
  {
    if Skipped(keys[0], httpMethod, path, matcher) {
      DecidedByFirst(keys[1..], httpMethod, path, matcher);
      var i :| 0 <= i < |keys| - 1 && !Skipped(keys[1..][i], httpMethod, path, matcher)
        && (forall j :: 0 <= j < i ==> Skipped(keys[1..][j], httpMethod, path, matcher))
        && Search(keys[1..], httpMethod, path, matcher) == Decide(keys[1..][i], httpMethod, path, matcher);
      assert keys[1..][i] == keys[i + 1];
      forall j | 0 <= j < i + 1 ensures Skipped(keys[j], httpMethod, path, matcher) {
        if j > 0 { assert keys[j] == keys[1..][j - 1]; }
      }
    }
  }

  /** Routes of another method are never compiled: two matchers that agree on
      the patterns of the routes with the request's method give the same search. */
  lemma {:induction false} IgnoresOtherMethods(keys: seq<string>, httpMethod: string, path: string, m1: Matcher, m2: Matcher)
    requires forall i :: 0 <= i < |keys| && MethodMatches(keys[i], httpMethod) ==>
      m1(SplitKey(keys[i]).1, path) == m2(SplitKey(keys[i]).1, path)
    ensures Search(keys, httpMethod, path, m1) == Search(keys, httpMethod, path, m2)
    decreases |keys|
  {
    if keys != [] {
      assert forall i :: 0 <= i < |keys| - 1 ==> keys[1..][i] == keys[i + 1];
      IgnoresOtherMethods(keys[1..], httpMethod, path, m1, m2);
    }
  }

  /** A matched key is never the empty string, so the source's `!matchedKey`
      test fails exactly when nothing matched. */
  lemma FoundKeyNonEmpty(keys: seq<string>, httpMethod: string, path: string, matcher: Matcher)
    requires httpMethod != ""
    ensures Search(keys, httpMethod, path, matcher).Found? ==> Search(keys, httpMethod, path, matcher).key != ""
  {
  }
}
