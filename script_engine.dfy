/** Vocabulary shared by every component (interface.go, types.go and the error
    variables of the two engine packages): engine handles, engine types, the
    values scripts exchange with the host, and the error taxonomy.

    An `Engine` is an opaque handle to one instance implementing the Engine
    interface. The pools and the manager never look inside an engine; what an
    engine does when the pool calls `Init` or `Close` on it is given to their
    operations as an outcome function (`Engine -> Option<Error>`). */
module ScriptEngine {
  import opened Wrappers

  /** The engine-type identifier (`Type string`). */
  type EngineType = string

  const LuaType: EngineType := "lua"
  const JavaScriptType: EngineType := "javascript"

  /** A non-nil engine instance; nil is `None` where the source accepts it. */
  datatype Engine = Engine(id: nat)

  /** A value crossing the host/script boundary (Go's `any`). A `Record` is a
      `map[string]any`. A `LuaFunction` is a Go function of gopher-lua's
      `LGFunction` type; a `HostFunction` is any other callable function (a Go
      function of another signature, an interpreter built-in such as
      `parseInt`, or a function a script defined). */
  datatype Value =
    | Nil
    | Data(handle: nat)
    | HostFunction(handle: nat)
    | LuaFunction(handle: nat)
    | Record(fields: map<string, Value>)

  /** A value a script can call: a function of either kind. */
  predicate Callable(v: Value)
  {
    v.HostFunction? || v.LuaFunction?
  }

  datatype Error =
    // factory.go
    | FactoryNotRegistered(typ: EngineType)
    | FactoryAlreadyRegistered(typ: EngineType)
    // manager.go
    | InvalidNameOrEngine
    | EngineAlreadyRegistered
    // engine_pool.go ("engine pool closed", "factory failed: %w", "init failed: %w")
    | InvalidPoolSize
    | PoolClosed
    | FactoryFailed(cause: Error)
    | InitFailed(cause: Error)
    // engine_pool_autogrow.go ("script engine: ..." messages)
    | InvalidSizes(initial: int, max: int)
    | EmptyEngineType
    | GrowFactoryFailed(cause: Error)
    | GrowPoolClosed
    // javascript/errors.go and javascript_engine.go
    | JsNotInitialized
    | JsAlreadyInitialized
    | JsRuntimeNotInitialized
    | JsNoProgramLoaded
    | JsGlobalNotFound(name: string)
    | JsFunctionNotFound(name: string)
    | JsNotAFunction(name: string)
    // lua/errors.go and lua_engine.go
    | LuaNotInitialized
    | LuaAlreadyInitialized
    | LuaFunctionTypeMismatch
    | LuaModuleTypeMismatch
    /** An error produced outside the modelled code: a compile or runtime
        error of an interpreter, a file-system error, a factory's own error
        or a cancelled context, passed through unchanged. */
    | External(message: string)

  /** The error a best-effort cleanup loop returns: it calls the operation on
      every element in order and keeps only the last non-nil error. */
  function LastError<T>(xs: seq<T>, outcome: T -> Option<Error>): Option<Error>
  {
    if xs == [] then None
    else if outcome(xs[|xs| - 1]).Some? then outcome(xs[|xs| - 1])
    else LastError(xs[..|xs| - 1], outcome)
  }

  /** Cleanup reports no error exactly when every call succeeded. */
  lemma {:induction false} LastErrorNoneIff<T>(xs: seq<T>, outcome: T -> Option<Error>)
    ensures LastError(xs, outcome) == None <==> forall i :: 0 <= i < |xs| ==> outcome(xs[i]) == None
  {
    if xs != [] {
      var init := xs[..|xs| - 1];
      LastErrorNoneIff(init, outcome);
      assert forall i :: 0 <= i < |init| ==> init[i] == xs[i];
    }
  }

  /** A reported cleanup error is the error of some call, and every later call
      succeeded: it is the LAST failure, not the first. */
  lemma {:induction false} LastErrorIsLastFailure<T>(xs: seq<T>, outcome: T -> Option<Error>)
    requires LastError(xs, outcome).Some?
    ensures exists i :: 0 <= i < |xs| && outcome(xs[i]) == LastError(xs, outcome) &&
                        forall j :: i < j < |xs| ==> outcome(xs[j]) == None
  {
    var n := |xs|;
    if outcome(xs[n - 1]).Some? {
      assert outcome(xs[n - 1]) == LastError(xs, outcome);
    } else {
      var init := xs[..n - 1];
      LastErrorIsLastFailure(init, outcome);
      var i :| 0 <= i < |init| && outcome(init[i]) == LastError(init, outcome) &&
               forall j :: i < j < |init| ==> outcome(init[j]) == None;
      assert outcome(xs[i]) == LastError(xs, outcome);
      forall j | i < j < n ensures outcome(xs[j]) == None {
        if j < n - 1 { assert xs[j] == init[j]; }
      }
    }
  }

  /** The error of a loop that stops at the first failing call. */
  function FirstError<T>(xs: seq<T>, outcome: T -> Option<Error>): Option<Error>
  {
    if xs == [] then None
    else if outcome(xs[0]).Some? then outcome(xs[0])
    else FirstError(xs[1..], outcome)
  }

  /** A stop-at-first-error loop fails exactly at its first failing call:
      every call before it succeeded. */
  lemma {:induction false} FirstErrorIsFirstFailure<T>(xs: seq<T>, outcome: T -> Option<Error>)
    ensures FirstError(xs, outcome) == None <==> forall i :: 0 <= i < |xs| ==> outcome(xs[i]) == None
    ensures FirstError(xs, outcome).Some? ==>
              exists i :: 0 <= i < |xs| && outcome(xs[i]) == FirstError(xs, outcome) &&
                          forall j :: 0 <= j < i ==> outcome(xs[j]) == None
  {
    if xs != [] && outcome(xs[0]).None? {
      var rest := xs[1..];
      FirstErrorIsFirstFailure(rest, outcome);
      assert forall i :: 0 <= i < |rest| ==> rest[i] == xs[i + 1];
      if FirstError(rest, outcome).Some? {
        var i :| 0 <= i < |rest| && outcome(rest[i]) == FirstError(rest, outcome) &&
                 forall j :: 0 <= j < i ==> outcome(rest[j]) == None;
        assert outcome(xs[i + 1]) == FirstError(xs, outcome);
        forall j | 0 <= j < i + 1 ensures outcome(xs[j]) == None {
          if j > 0 { assert xs[j] == rest[j - 1]; }
        }
      }
    }
  }

  /** Go's `for k := range m`: every key exactly once, in an order the
      language does not fix. */
  method EnumerateKeys<K, V>(m: map<K, V>) returns (ks: seq<K>)
    ensures |ks| == |m|
    ensures forall k :: k in ks <==> k in m
    ensures forall i, j :: 0 <= i < j < |ks| ==> ks[i] != ks[j]
  {
    ks := [];
    var rest := m.Keys;
    ghost var seen: set<K> := {};
    while rest != {}
      invariant seen == set k | k in ks
      invariant rest == m.Keys - seen
      invariant seen <= m.Keys
      invariant |ks| == |seen| && |rest| + |seen| == |m.Keys|
      invariant forall i, j :: 0 <= i < j < |ks| ==> ks[i] != ks[j]
      decreases rest
    {
      var k :| k in rest;
      ks := ks + [k];
      seen := seen + {k};
      rest := rest - {k};
    }
  }
}
