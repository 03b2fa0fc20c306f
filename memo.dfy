/** The memoization layer: `memoizeP` over an abstract backend, the `inMemory`
    backend and `memoize = memoizeP(inMemory({}))`, as written; then the cache
    the wrapper was evidently meant to be. */
module Memo {
  import opened Js
  import opened CacheKey

  /** The wrapped asynchronous operation, as the value its promise settles to
      for an argument list. */
  type Operation = seq<string> -> Result<Value>

  /** `{ hash, read, write }`. A backend that performs I/O is outside the model:
      its three operations are functions of their arguments. */
  datatype Backend = Backend(
    hash: seq<string> -> string,
    read: string -> Value,
    write: (string, Value) -> Value)

  /** What one call of the wrapper does: what it returns, whether it invoked the
      operation, and the `write` it made. */
  datatype MemoOutcome = MemoOutcome(result: Result<Value>, invoked: bool, written: Option<(string, Value)>)

  /** One call of the function `memoizeP(backend)(operation)`. */
  function MemoStep(backend: Backend, operation: Operation, args: seq<string>): (o: MemoOutcome)
    // a truthy read is returned as it is, without invoking the operation
    ensures o.invoked <==> !Truthy(backend.read(backend.hash(args)))
    ensures !o.invoked ==> o.result == Success(backend.read(backend.hash(args))) && o.written == None
    // otherwise the operation runs with the same arguments; a failure is passed on and not written
    ensures o.invoked && operation(args).Failure? ==> o.result == operation(args) && o.written == None
    // and a success is written and the call returns what `write` returns
    ensures o.invoked && operation(args).Success? ==>
      var key := backend.hash(args);
      o.written == Some((key, operation(args).value)) && o.result == Success(backend.write(key, operation(args).value))
  {
    var key := backend.hash(args);
    var value := backend.read(key);
    if Truthy(value) then MemoOutcome(Success(value), false, None)
    else
      match operation(args)
      case Failure(e) => MemoOutcome(Failure(e), true, None)
      case Success(result) => MemoOutcome(Success(backend.write(key, result)), true, Some((key, result)))
  }

  /** The function `memoizeP(backend)(operation)`. It keeps no state of its
      own; the ghost logs record every invocation of the operation and every
      `write`. */
  class Memoized {
    const backend: Backend
    const operation: Operation
    ghost var invocations: seq<seq<string>>
    ghost var writes: seq<(string, Value)>

    constructor (backend: Backend, operation: Operation)
      ensures this.backend == backend && this.operation == operation
      ensures invocations == [] && writes == []
    {
      this.backend := backend;
      this.operation := operation;
      invocations := [];
      writes := [];
    }

    method Call(args: seq<string>) returns (r: Result<Value>)
      modifies this
      ensures r == MemoStep(backend, operation, args).result
      ensures var hit := Truthy(backend.read(backend.hash(args)));
        && (hit ==> r == Success(backend.read(backend.hash(args))))
        && invocations == old(invocations) + (if hit then [] else [args])
      ensures writes == old(writes) +
        match MemoStep(backend, operation, args).written
        case None => []
        case Some(w) => [w]
    {
      var key := backend.hash(args);
      var value := backend.read(key);
      if Truthy(value) {
        return Success(value);
      }
      invocations := invocations + [args];
      var result := operation(args);
      match result
      case Failure(e) =>
        r := Failure(e);
      case Success(v) =>
        writes := writes + [(key, v)];
        r := Success(backend.write(key, v));
    }
  }

  /** `inMemory(memory)`: the key is the JSON text of the argument list, `read`
      looks it up, and `write` builds a new map instead of changing `memory`. */
  function InMemory(memory: map<string, Value>): Backend {
    Backend(
      args => Key(args),
      key => if key in memory then memory[key] else Undefined,
      (key, value) => Obj(memory[key := value]))
  }

  /** `write` yields `memory` extended with `key ↦ value`, and the backend still
      reads from `memory`: the write is not seen by any later read. */
  lemma InMemoryWrite(memory: map<string, Value>, key: string, value: Value)
    ensures InMemory(memory).write(key, value) == Obj(memory[key := value])
    ensures InMemory(memory).write(key, value).props.Keys == memory.Keys + {key}
    ensures forall k :: k in memory && k != key ==> InMemory(memory).write(key, value).props[k] == memory[k]
    ensures InMemory(memory).read(key) == if key in memory then memory[key] else Undefined
  {
  }

  /** With `inMemory(memory)` a call whose key holds a truthy value returns it
      and does not invoke the operation. */
  lemma InMemoryHit(memory: map<string, Value>, operation: Operation, args: seq<string>)
    requires Key(args) in memory && Truthy(memory[Key(args)])
    ensures MemoStep(InMemory(memory), operation, args) == MemoOutcome(Success(memory[Key(args)]), false, None)
  {
  }

  /** `memoize = memoizeP(inMemory({}))`: every read misses, so every call
      invokes the operation, and a successful call returns the one-entry map
      `{ [key]: result }` rather than the result. */
  lemma MemoizeAlwaysInvokes(operation: Operation, args: seq<string>)
    ensures MemoStep(InMemory(map[]), operation, args).invoked
    ensures operation(args).Success? ==>
      MemoStep(InMemory(map[]), operation, args).result == Success(Obj(map[Key(args) := operation(args).value]))
    ensures operation(args).Failure? ==> MemoStep(InMemory(map[]), operation, args).result == operation(args)
  {
  }

  /** What `memoize` returns has no `result` property: its only key is the JSON
      text of an argument list, which starts with `[`. */
  lemma MemoizeResultHasNoResultField(operation: Operation, args: seq<string>)
    requires MemoStep(InMemory(map[]), operation, args).result.Success?
    ensures Get(MemoStep(InMemory(map[]), operation, args).result.value, "result") == Success(Undefined)
  {
    var k := Key(args);
    assert k[0] != "result"[0];
  }

  /** A concrete call that shows the wrapper returning the cache map: the
      operation resolves to "hit" and the call resolves to `{ '["x","en"]': "hit" }`. */
  lemma MemoizeReturnsCacheMap()
    ensures var operation: Operation := _ => Success(Str("hit"));
      MemoStep(InMemory(map[]), operation, ["x", "en"]).result != operation(["x", "en"])
  {
    var operation: Operation := _ => Success(Str("hit"));
    MemoizeAlwaysInvokes(operation, ["x", "en"]);
  }

  /** `memoize(operation)` called twice with the same arguments: the first call
      writes nothing that the second can read, so both calls invoke the
      operation and both resolve to the same cache map. */
  method MemoizeTwice(operation: Operation, args: seq<string>) returns (m: Memoized, r1: Result<Value>, r2: Result<Value>)
    ensures m.backend == InMemory(map[]) && m.operation == operation
    ensures m.invocations == [args, args]
    ensures r1 == r2 == MemoStep(InMemory(map[]), operation, args).result
  {
    MemoizeAlwaysInvokes(operation, args);
    m := new Memoized(InMemory(map[]), operation);
    r1 := m.Call(args);
    r2 := m.Call(args);
  }

  predicate TruthyResult(r: Result<Value>) {
    r.Success? && Truthy(r.value)
  }

  /** The cache the wrapper evidently means: `memory` is updated on every
      successful invocation and the operation's own result is returned. Each
      cache serves one operation. The two memoized functions share one backend
      and build the same key for the same `(string, language)` pair, so with a
      shared, updated `memory` one would be answered with the other's entry;
      the fix gives each memoized function its own backend. The operation is
      deterministic here, so the cache is sound exactly when every entry is
      what the operation yields for the arguments its key encodes. */
  class Cache {
    const operation: Operation
    var memory: map<string, Value>
    ghost var invocations: seq<seq<string>>

    ghost predicate Valid()
      reads this
    {
      && (forall k :: k in memory ==>
            ParseKey(k).Some? && operation(ParseKey(k).value) == Success(memory[k]))
      && (forall i :: 0 <= i < |invocations| && TruthyResult(operation(invocations[i])) ==>
            Key(invocations[i]) in memory && Truthy(memory[Key(invocations[i])]))
      // at most one invocation per argument list, once it has yielded a truthy value
      && (forall i, j :: 0 <= i < j < |invocations| && invocations[i] == invocations[j] ==>
            !TruthyResult(operation(invocations[i])))
    }

    constructor (operation: Operation)
      ensures Valid()
      ensures this.operation == operation && memory == map[] && invocations == []
    {
      this.operation := operation;
      memory := map[];
      invocations := [];
    }

    method Call(args: seq<string>) returns (r: Result<Value>)
      requires Valid()
      modifies this
      ensures Valid()
      // the cache is invisible to the caller: the result is the operation's own
      ensures r == operation(args)
      ensures var key := Key(args);
        var hit := key in old(memory) && Truthy(old(memory)[key]);
        && (hit ==> invocations == old(invocations) && memory == old(memory))
        && (!hit ==> invocations == old(invocations) + [args])
        && (!hit ==> memory == if r.Success? then old(memory)[key := r.value] else old(memory))
    {
      var key := Key(args);
      KeyRoundTrip(args);
      if key in memory && Truthy(memory[key]) {
        return Success(memory[key]);
      }
      invocations := invocations + [args];
      r := operation(args);
      if r.Success? {
        memory := memory[key := r.value];
      }
    }
  }

  /** The corrected cache called twice with the same arguments: a truthy
      result is served from `memory` the second time, so the operation runs
      once; otherwise it runs again. Both calls return the operation's result. */
  method CacheTwice(operation: Operation, args: seq<string>) returns (c: Cache, r1: Result<Value>, r2: Result<Value>)
    ensures c.Valid() && c.operation == operation
    ensures r1 == r2 == operation(args)
    ensures c.invocations == if TruthyResult(operation(args)) then [args] else [args, args]
  {
    c := new Cache(operation);
    r1 := c.Call(args);
    r2 := c.Call(args);
  }
}
