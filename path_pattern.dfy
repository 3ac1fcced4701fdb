/** A concrete matcher for the subset of route patterns made of static
    segments and `:name` parameters. It stands in for the path-matching
    library in examples; the dispatch model itself takes any `Matcher`. */
module PathPattern {

  import opened Types
  import opened Strings

  /** A `:name` segment. */
  predicate IsParam(segment: string) {
    |segment| > 0 && segment[0] == ':'
  }

  /** Patterns this matcher reports as errors: a `?` (a modifier outside the
      subset) or a parameter without a name. */
  predicate Malformed(pattern: string) {
    '?' in pattern || ":" in Split(pattern, '/')
  }

  /** A path segment fits a pattern segment: a parameter takes any non-empty
      segment, a static segment only itself. */
  predicate Fits(p: string, x: string) {
    if IsParam(p) then x != "" else p == x
  }

  /** Segment-wise match: static segments must be equal, a parameter binds a
      non-empty segment to its name; parameters are assigned in order, so a
      repeated name keeps the later segment. */
  function MatchSegments(ps: seq<string>, xs: seq<string>): (r: Option<map<string, string>>)
    requires |ps| == |xs|
    decreases |ps|
  {
    if ps == [] then Some(map[])
    else
      match MatchSegments(ps[1..], xs[1..])
      case None => None
      case Some(m) =>
        if !Fits(ps[0], xs[0]) then None
        else if IsParam(ps[0]) then Some(map[ps[0][1..] := xs[0]] + m)
        else Some(m)
  }

  /** Two parameters with the same name are the same segment. */
  lemma ParamNamed(p: string, q: string)
    requires IsParam(p) && IsParam(q) && p != q
    ensures p[1..] != q[1..]
  {
    assert p == [p[0]] + p[1..] && q == [q[0]] + q[1..];
  }

  /** The match succeeds exactly when every segment fits. */
  lemma {:induction false} MatchSegmentsSucceeds(ps: seq<string>, xs: seq<string>)
    requires |ps| == |xs|
    ensures MatchSegments(ps, xs).Some? <==> forall i :: 0 <= i < |ps| ==> Fits(ps[i], xs[i])
    decreases |ps|
  {
    if ps != [] {
      MatchSegmentsSucceeds(ps[1..], xs[1..]);
      if MatchSegments(ps[1..], xs[1..]).None? {
        var i :| 0 <= i < |ps| - 1 && !Fits(ps[1..][i], xs[1..][i]);
        assert !Fits(ps[i + 1], xs[i + 1]);
      } else {
        forall i | 1 <= i < |ps| ensures Fits(ps[i], xs[i]) {
          assert ps[1..][i - 1] == ps[i] && xs[1..][i - 1] == xs[i];
        }
      }
    }
  }

  /** The names a successful match binds are exactly the pattern's parameter names. */
  lemma {:induction false} MatchSegmentsNames(ps: seq<string>, xs: seq<string>, k: string)
    requires |ps| == |xs|
    requires MatchSegments(ps, xs).Some?
    ensures k in MatchSegments(ps, xs).value <==> exists i :: 0 <= i < |ps| && IsParam(ps[i]) && ps[i][1..] == k
    decreases |ps|
  {
    if ps != [] {
      MatchSegmentsNames(ps[1..], xs[1..], k);
      if exists i :: 1 <= i < |ps| && IsParam(ps[i]) && ps[i][1..] == k {
        var i :| 1 <= i < |ps| && IsParam(ps[i]) && ps[i][1..] == k;
        assert ps[1..][i - 1] == ps[i];
      }
      if exists i :: 0 <= i < |ps| - 1 && IsParam(ps[1..][i]) && ps[1..][i][1..] == k {
        var i :| 0 <= i < |ps| - 1 && IsParam(ps[1..][i]) && ps[1..][i][1..] == k;
        assert ps[i + 1] == ps[1..][i];
      }
    }
  }

  /** A parameter's name is bound to its segment, unless the same parameter
      occurs again later in the pattern. */
  lemma {:induction false} MatchSegmentsBinds(ps: seq<string>, xs: seq<string>, i: nat)
    requires |ps| == |xs|
    requires MatchSegments(ps, xs).Some?
    requires i < |ps| && IsParam(ps[i])
    requires forall j :: i < j < |ps| ==> ps[j] != ps[i]
    ensures ps[i][1..] in MatchSegments(ps, xs).value
    ensures MatchSegments(ps, xs).value[ps[i][1..]] == xs[i]
    decreases |ps|
  {
    var m := MatchSegments(ps[1..], xs[1..]).value;
    if i == 0 {
      forall j | 0 <= j < |ps| - 1 && IsParam(ps[1..][j]) ensures ps[1..][j][1..] != ps[0][1..] {
        assert ps[1..][j] == ps[j + 1];
        ParamNamed(ps[1..][j], ps[0]);
      }
      MatchSegmentsNames(ps[1..], xs[1..], ps[0][1..]);
    } else {
      assert ps[1..][i - 1] == ps[i];
      forall j | i - 1 < j < |ps| - 1 ensures ps[1..][j] != ps[1..][i - 1] {
        assert ps[1..][j] == ps[j + 1];
      }
      MatchSegmentsBinds(ps[1..], xs[1..], i - 1);
      assert xs[1..][i - 1] == xs[i];
    }
  }

  /** The matcher: split pattern and path on `/` and compare segment by segment. */
  function SimpleMatch(pattern: Option<string>, path: string): (r: MatchOutcome) {
    if pattern.None? then Threw(ErrorThrown("pattern is not a string"))
    else if Malformed(pattern.value) then Threw(ErrorThrown("invalid pattern: " + pattern.value))
    else
      var ps, xs := Split(pattern.value, '/'), Split(path, '/');
      if |ps| != |xs| then NoMatch
      else
        match MatchSegments(ps, xs)
        case None => NoMatch
        case Some(m) => Matched(m)
  }

  /** A pattern without parameters matches its own segments, binding nothing. */
  lemma {:induction false} MatchSegmentsStatic(ps: seq<string>)
    requires forall i :: 0 <= i < |ps| ==> !IsParam(ps[i])
    ensures MatchSegments(ps, ps) == Some(map[])
    decreases |ps|
  {
    if ps != [] {
      MatchSegmentsStatic(ps[1..]);
    }
  }

  /** A well-formed pattern without parameters matches its own text, binding nothing. */
  lemma StaticPatternMatchesItself(ps: seq<string>)
    requires |ps| >= 1
    requires forall i :: 0 <= i < |ps| ==> '/' !in ps[i] && '?' !in ps[i] && ps[i] != ":" && !IsParam(ps[i])
    ensures SimpleMatch(Some(Join(ps, '/')), Join(ps, '/')) == Matched(map[])
  {
    WellFormedFromSegments(ps);
    MatchSegmentsStatic(ps);
  }

  lemma SplitUsersId()
    ensures Split("/api/users/:id", '/') == ["", "api", "users", ":id"]
  {
    assert Join(["", "api", "users", ":id"], '/') == "/api/users/:id";
    SplitJoin(["", "api", "users", ":id"], '/');
  }

  lemma SplitUsersOne()
    ensures Split("/api/users/1", '/') == ["", "api", "users", "1"]
  {
    assert Join(["", "api", "users", "1"], '/') == "/api/users/1";
    SplitJoin(["", "api", "users", "1"], '/');
  }

  lemma SplitPostsOne()
    ensures Split("/api/posts/1", '/') == ["", "api", "posts", "1"]
  {
    assert Join(["", "api", "posts", "1"], '/') == "/api/posts/1";
    SplitJoin(["", "api", "posts", "1"], '/');
  }

  /** A pattern built from segments that hold no `/` or `?` and none of which
      is a bare `:` is well formed, and splits back into those segments. */
  lemma WellFormedFromSegments(ps: seq<string>)
    requires |ps| >= 1
    requires forall i :: 0 <= i < |ps| ==> '/' !in ps[i] && '?' !in ps[i] && ps[i] != ":"
    ensures Split(Join(ps, '/'), '/') == ps
    ensures !Malformed(Join(ps, '/'))
  {
    SplitJoin(ps, '/');
    JoinAvoids(ps, '/', '?');
  }

  lemma ApiUsersWellFormed()
    ensures !Malformed("/api/users/:id")
  {
    var ps: seq<string> := ["", "api", "users", ":id"];
    assert Join(ps, '/') == "/api/users/:id";
    assert '/' !in ps[1] && '?' !in ps[1] && '/' !in ps[2] && '?' !in ps[2] && '/' !in ps[3] && '?' !in ps[3];
    WellFormedFromSegments(ps);
  }

  lemma ApiUsersSegments()
    ensures MatchSegments(["", "api", "users", ":id"], ["", "api", "users", "1"]) == Some(map["id" := "1"])
    ensures MatchSegments(["", "api", "users", ":id"], ["", "api", "posts", "1"]) == None
  {
    var ps: seq<string> := ["", "api", "users", ":id"];
    assert IsParam(":id") && ":id"[1..] == "id";
    assert !IsParam("") && !IsParam("api") && !IsParam("users");
    assert map["id" := "1"] + map[] == map["id" := "1"];
    assert MatchSegments(ps[3..], ["1"]) == Some(map["id" := "1"]);
    assert MatchSegments(ps[2..], ["users", "1"]) == Some(map["id" := "1"]);
    assert MatchSegments(ps[1..], ["api", "users", "1"]) == Some(map["id" := "1"]);
    assert "users" != "posts";
    assert MatchSegments(ps[2..], ["posts", "1"]) == None;
  }

  lemma UsersIdExample()
    ensures SimpleMatch(Some("/api/users/:id"), "/api/users/1") == Matched(map["id" := "1"])
    ensures SimpleMatch(Some("/api/users/:id"), "/api/posts/1") == NoMatch
  {
    SplitUsersId();
    SplitUsersOne();
    SplitPostsOne();
    ApiUsersWellFormed();
    ApiUsersSegments();
  }

  /** A pattern with a `?` is reported as an error, whatever the path. */
  lemma QuestionMarkRejected(pattern: string, path: string)
    requires '?' in pattern
    ensures SimpleMatch(Some(pattern), path) == Threw(ErrorThrown("invalid pattern: " + pattern))
  {
  }

  lemma QuestionMarkExample()
    ensures SimpleMatch(Some("/api/posts/?id"), "/api/users/1") == Threw(ErrorThrown("invalid pattern: " + "/api/posts/?id"))
  {
    assert "/api/posts/?id"[11] == '?';
    QuestionMarkRejected("/api/posts/?id", "/api/users/1");
  }
}
