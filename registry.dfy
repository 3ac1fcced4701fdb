/** The route registry's bookkeeping: the mocker keeps its endpoints in a
    JavaScript `Map`, whose keys are enumerated in insertion order and whose
    `set` on an existing key replaces the value without moving the key.
    The registry is modelled as a key sequence plus a key-to-handler map;
    this module gives the effect of each `Map` operation on them and of a
    bulk load, and proves what those effects preserve. */
module Registry {

  import opened Types
  import Logger

  /** No key occurs twice. */
  predicate Distinct(s: seq<string>) {
    forall i, j :: 0 <= i < j < |s| ==> s[i] != s[j]
  }

  /** The key order after `map.set(k, _)`. */
  function Put(keys: seq<string>, k: string): (r: seq<string>)
    ensures keys <= r
    ensures forall x :: x in r <==> x in keys || x == k
    ensures |r| == if k in keys then |keys| else |keys| + 1
    ensures Distinct(keys) ==> Distinct(r)
  {
    if k in keys then keys else keys + [k]
  }

  /** The key order after `map.delete(k)`. */
  function Remove(keys: seq<string>, k: string): (r: seq<string>)
    ensures forall x :: x in r <==> x in keys && x != k
    ensures k !in keys ==> r == keys
    ensures Distinct(keys) ==> Distinct(r)
    decreases |keys|
  {
    if keys == [] then []
    else if keys[0] == k then Remove(keys[1..], k)
    else
      var rest := Remove(keys[1..], k);
      assert Distinct(keys) ==> keys[0] !in keys[1..] && Distinct(keys[1..]) by {
        if Distinct(keys) {
          forall j | 0 <= j < |keys| - 1 ensures keys[1..][j] != keys[0] { assert keys[1..][j] == keys[j + 1]; }
        }
      }
      [keys[0]] + rest
  }

  /** Deleting a key that occurs once leaves the keys before and after it, in order. */
  lemma {:induction false} RemoveSplit(a: seq<string>, k: string, b: seq<string>)
    requires k !in a && k !in b
    ensures Remove(a + [k] + b, k) == a + b
    decreases |a|
  {
    if a == [] {
      assert (a + [k] + b)[1..] == b;
    } else {
      assert (a + [k] + b)[1..] == a[1..] + [k] + b;
      RemoveSplit(a[1..], k, b);
      assert a + b == [a[0]] + (a[1..] + b);
    }
  }

  /** In a sequence without duplicates, the element at `i` occurs neither before nor after `i`. */
  lemma DistinctAt(keys: seq<string>, i: nat)
    requires Distinct(keys) && i < |keys|
    ensures keys[i] !in keys[..i] && keys[i] !in keys[i + 1..]
  {
    var a, b := keys[..i], keys[i + 1..];
    forall j | 0 <= j < |a| ensures a[j] != keys[i] {
      assert a[j] == keys[j];
    }
    forall j | 0 <= j < |b| ensures b[j] != keys[i] {
      assert b[j] == keys[i + 1 + j];
    }
  }

  /** Removing the key at position `i` of a registry without duplicates drops
      exactly that position and keeps the others in their relative order. */
  lemma RemoveAt(keys: seq<string>, i: nat)
    requires Distinct(keys) && i < |keys|
    ensures Remove(keys, keys[i]) == keys[..i] + keys[i + 1..]
  {
    var a, k, b := keys[..i], keys[i], keys[i + 1..];
    DistinctAt(keys, i);
    RemoveSplit(a, k, b);
    assert keys == a + [k] + b;
  }

  /** The keys of a bulk-load source, in its enumeration order. */
  function KeysOf(es: seq<Entry>): (r: seq<string>)
    ensures |r| == |es|
    ensures forall i :: 0 <= i < |es| ==> r[i] == es[i].0
  {
    seq(|es|, i requires 0 <= i < |es| => es[i].0)
  }

  /** Position of the first occurrence of `x` in `s`. */
  function IndexOf(s: seq<string>, x: string): (i: nat)
    requires x in s
    ensures i < |s| && s[i] == x && x !in s[..i]
    decreases |s|
  {
    if s[0] == x then 0 else 1 + IndexOf(s[1..], x)
  }

  /** Position of the last occurrence of `x` in `s`. */
  function LastIndex(s: seq<string>, x: string): (i: nat)
    requires x in s
    ensures i < |s| && s[i] == x && x !in s[i + 1..]
    decreases |s|
  {
    if s[|s| - 1] == x then |s| - 1 else LastIndex(s[..|s| - 1], x)
  }

  /** The key order after `addEndpoint` of every entry of `es`, one after the other. */
  function LoadKeys(keys: seq<string>, es: seq<Entry>): (r: seq<string>)
    decreases |es|
  {
    if es == [] then keys else Put(LoadKeys(keys, es[..|es| - 1]), es[|es| - 1].0)
  }

  /** The handler map after `addEndpoint` of every entry of `es`. */
  function LoadHandlers(handlers: map<string, MockEndpoint>, es: seq<Entry>): (r: map<string, MockEndpoint>)
    decreases |es|
  {
    if es == [] then handlers
    else LoadHandlers(handlers, es[..|es| - 1])[es[|es| - 1].0 := es[|es| - 1].1]
  }

  /** The warning `addEndpoint(k, _)` prints: only in development mode, and only
      when `k` is already registered. */
  function DuplicateWarning(keys: seq<string>, k: string, dev: bool): (r: seq<string>) {
    if dev && k in keys then [Logger.WithPrefix("Duplicate endpoint: " + k)] else []
  }

  /** The warnings printed while adding every entry of `es`, in order. */
  function LoadWarnings(keys: seq<string>, es: seq<Entry>, dev: bool): (r: seq<string>)
    decreases |es|
  {
    if es == [] then []
    else
      var init := es[..|es| - 1];
      LoadWarnings(keys, init, dev) + DuplicateWarning(LoadKeys(keys, init), es[|es| - 1].0, dev)
  }

  /** The entries a bulk load iterates over: those of a `Map` or a plain object, and none otherwise. */
  function Entries(src: EndpointsSource): (r: seq<Entry>) {
    match src
    case MapSource(es) => es
    case ObjectSource(es) => es
    case NoEndpoints => []
    case InvalidSource => []
  }

  const INVALID_ENDPOINTS_WARNING: string := "Invalid endpoints map. Expected Map or object."

  /** The warnings a bulk load prints. */
  function SourceWarnings(keys: seq<string>, src: EndpointsSource, dev: bool): (r: seq<string>) {
    if src.InvalidSource? then (if dev then [Logger.WithPrefix(INVALID_ENDPOINTS_WARNING)] else [])
    else LoadWarnings(keys, Entries(src), dev)
  }

  /** One more entry of a bulk load: the state after `addEndpoint` of entry
      `i` is the load of the first `i + 1` entries. */
  lemma LoadStep(keys0: seq<string>, handlers0: map<string, MockEndpoint>, warnings0: seq<string>,
                 es: seq<Entry>, i: nat, dev: bool,
                 keys: seq<string>, handlers: map<string, MockEndpoint>, warnings: seq<string>,
                 keys': seq<string>, handlers': map<string, MockEndpoint>, warnings': seq<string>)
    requires i < |es|
    requires keys == LoadKeys(keys0, es[..i]) && handlers == LoadHandlers(handlers0, es[..i])
    requires warnings == warnings0 + LoadWarnings(keys0, es[..i], dev)
    requires keys' == Put(keys, es[i].0) && handlers' == handlers[es[i].0 := es[i].1]
    requires warnings' == warnings + DuplicateWarning(keys, es[i].0, dev)
    ensures keys' == LoadKeys(keys0, es[..i + 1])
    ensures handlers' == LoadHandlers(handlers0, es[..i + 1])
    ensures warnings' == warnings0 + LoadWarnings(keys0, es[..i + 1], dev)
  {
    assert es[..i + 1][..i] == es[..i];
    assert (warnings0 + LoadWarnings(keys0, es[..i], dev)) + DuplicateWarning(keys, es[i].0, dev)
        == warnings0 + (LoadWarnings(keys0, es[..i], dev) + DuplicateWarning(keys, es[i].0, dev));
  }

  lemma KeysOfInit(es: seq<Entry>)
    requires es != []
    ensures KeysOf(es) == KeysOf(es[..|es| - 1]) + [es[|es| - 1].0]
  {
  }

  /** A bulk load keeps every existing key in place, adds exactly the source's
      keys, and never introduces a duplicate. */
  lemma {:induction false} LoadKeysShape(keys: seq<string>, es: seq<Entry>)
    ensures keys <= LoadKeys(keys, es)
    ensures forall x :: x in LoadKeys(keys, es) <==> x in keys || x in KeysOf(es)
    ensures Distinct(keys) ==> Distinct(LoadKeys(keys, es))
    decreases |es|
  {
    if es != [] {
      LoadKeysShape(keys, es[..|es| - 1]);
      KeysOfInit(es);
    }
  }

  lemma {:induction false} IndexOfAppend(s: seq<string>, y: string, x: string)
    requires x in s
    ensures IndexOf(s + [y], x) == IndexOf(s, x)
    decreases |s|
  {
    if s[0] != x {
      assert (s + [y])[1..] == s[1..] + [y];
      IndexOfAppend(s[1..], y, x);
    }
  }

  /** The keys a bulk load appends come from the source and stand in the order
      of their first occurrence in it. */
  lemma {:induction false} LoadKeysOrder(keys: seq<string>, es: seq<Entry>)
    ensures var r := LoadKeys(keys, es);
      && |keys| <= |r|
      && (forall i :: |keys| <= i < |r| ==> r[i] in KeysOf(es))
      && (forall i, j :: |keys| <= i < j < |r| ==> IndexOf(KeysOf(es), r[i]) < IndexOf(KeysOf(es), r[j]))
    decreases |es|
  {
    LoadKeysShape(keys, es);
    if es != [] {
      var init := es[..|es| - 1];
      var k := es[|es| - 1].0;
      var r' := LoadKeys(keys, init);
      var r := LoadKeys(keys, es);
      LoadKeysOrder(keys, init);
      LoadKeysShape(keys, init);
      KeysOfInit(es);
      var ks' := KeysOf(init);
      forall i | |keys| <= i < |r'|
        ensures IndexOf(KeysOf(es), r'[i]) == IndexOf(ks', r'[i])
      {
        IndexOfAppend(ks', k, r'[i]);
      }
      if k !in r' {
        assert r == r' + [k];
        assert k !in ks';
        assert IndexOf(KeysOf(es), k) == |init|;
        forall i, j | |keys| <= i < j < |r|
          ensures IndexOf(KeysOf(es), r[i]) < IndexOf(KeysOf(es), r[j])
        {
          if j == |r| - 1 {
            assert r[i] == r'[i];
          } else {
            assert r[i] == r'[i] && r[j] == r'[j];
          }
        }
      }
    }
  }

  /** Loading into an empty registry (`setEndpoints`) leaves exactly the
      distinct keys of the source, in the order of their first occurrence. */
  lemma LoadIntoEmpty(es: seq<Entry>)
    ensures var r := LoadKeys([], es);
      && Distinct(r)
      && (forall x :: x in r <==> x in KeysOf(es))
      && (forall i, j :: 0 <= i < j < |r| ==> IndexOf(KeysOf(es), r[i]) < IndexOf(KeysOf(es), r[j]))
  {
    LoadKeysShape([], es);
    LoadKeysOrder([], es);
  }

  /** After a bulk load a key is registered iff it was before or the source
      has it; its handler is the one of its LAST entry in the source, or the
      previous one when the source does not mention it. */
  lemma {:induction false} LoadHandlersLookup(handlers: map<string, MockEndpoint>, es: seq<Entry>, k: string)
    ensures k in LoadHandlers(handlers, es) <==> k in handlers || k in KeysOf(es)
    ensures k in KeysOf(es) ==> LoadHandlers(handlers, es)[k] == es[LastIndex(KeysOf(es), k)].1
    ensures k !in KeysOf(es) && k in handlers ==> LoadHandlers(handlers, es)[k] == handlers[k]
    decreases |es|
  {
    if es != [] {
      var init := es[..|es| - 1];
      LoadHandlersLookup(handlers, init, k);
      KeysOfInit(es);
      if k in KeysOf(es) && k != es[|es| - 1].0 {
        var ks := KeysOf(es);
        assert ks[..|ks| - 1] == KeysOf(init);
        assert LastIndex(ks, k) == LastIndex(KeysOf(init), k);
        assert es[LastIndex(KeysOf(init), k)] == init[LastIndex(KeysOf(init), k)];
      }
    }
  }

  /** During a bulk load, every entry either registers a new key or (in
      development mode only) prints one duplicate warning. */
  lemma {:induction false} LoadWarningsCount(keys: seq<string>, es: seq<Entry>, dev: bool)
    ensures !dev ==> LoadWarnings(keys, es, dev) == []
    ensures dev ==> |LoadWarnings(keys, es, dev)| + (|LoadKeys(keys, es)| - |keys|) == |es|
    decreases |es|
  {
    if es != [] {
      LoadWarningsCount(keys, es[..|es| - 1], dev);
      LoadKeysShape(keys, es[..|es| - 1]);
    }
  }
}
