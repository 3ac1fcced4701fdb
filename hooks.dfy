/** The hook pipeline: pre-hooks run on the mock request and post-hooks on
    the response, each in registration order, each awaited before the next;
    the first one that throws aborts the rest. */
module Hooks {

  import opened Types

  /** Running `hooks` one after the other on `x`: the value the last one
      leaves, or the error the first failing one throws. */
  function RunHooks<T>(hooks: seq<(T, RequestWithMock) -> Result<T>>, x: T, req: RequestWithMock): (r: Result<T>)
    decreases |hooks|
  {
    if hooks == [] then Ok(x)
    else
      match hooks[0](x, req)
      case Err(e) => Err(e)
      case Ok(y) => RunHooks(hooks[1..], y, req)
  }

  /** The `for (const hook of hooks) await hook(x, config)` loop. */
  method RunAll<T>(hooks: seq<(T, RequestWithMock) -> Result<T>>, x: T, req: RequestWithMock) returns (r: Result<T>)
    ensures r == RunHooks(hooks, x, req)
  {
    var current := x;
    var i := 0;
    while i < |hooks|
      invariant 0 <= i <= |hooks|
      invariant RunHooks(hooks, x, req) == RunHooks(hooks[i..], current, req)
    {
      assert hooks[i..][0] == hooks[i] && hooks[i..][1..] == hooks[i + 1..];
      var step := hooks[i](current, req);
      if step.Err? {
        return Err(step.error);
      }
      current := step.value;
      i := i + 1;
    }
    return Ok(current);
  }

  /** Continue with `hooks` after a partial run, unless it already failed. */
  function Then<T>(r: Result<T>, hooks: seq<(T, RequestWithMock) -> Result<T>>, req: RequestWithMock): (out: Result<T>) {
    match r
    case Err(e) => Err(e)
    case Ok(y) => RunHooks(hooks, y, req)
  }

  /** Running `a + b` is running `a`, then `b` on what `a` left: hooks run in
      registration order, so a hook added last runs last. */
  lemma {:induction false} RunHooksAppend<T>(a: seq<(T, RequestWithMock) -> Result<T>>, b: seq<(T, RequestWithMock) -> Result<T>>,
                                            x: T, req: RequestWithMock)
    ensures RunHooks(a + b, x, req) == Then(RunHooks(a, x, req), b, req)
    decreases |a|
  {
    if a != [] {
      assert (a + b)[0] == a[0] && (a + b)[1..] == a[1..] + b;
      match a[0](x, req)
      case Err(e) =>
      case Ok(y) => RunHooksAppend(a[1..], b, y, req);
    } else {
      assert a + b == b;
    }
  }

  /** If the hooks before position `i` succeed and hook `i` throws, the run
      fails with exactly that error: the remaining hooks never run. */
  lemma StopsAtFirstFailure<T>(hooks: seq<(T, RequestWithMock) -> Result<T>>, i: nat, x: T, y: T, req: RequestWithMock, e: string)
    requires i < |hooks|
    requires RunHooks(hooks[..i], x, req) == Ok(y)
    requires hooks[i](y, req) == Err(e)
    ensures RunHooks(hooks, x, req) == Err(e)
  {
    assert hooks == hooks[..i] + hooks[i..];
    RunHooksAppend(hooks[..i], hooks[i..], x, req);
  }
}
