/** The Lua engine of lua/lua_engine.go: a lifecycle flag, the virtual
    machine it owns while initialized, and a last-error slot. The virtual
    machine is opaque; what loading, running and calling on it return is
    supplied as outcome functions of the machine. A cancelled context is the
    `cancelled` argument: when present, that error is what the call returns.
    Unlike the JavaScript engine, a success never clears the slot, and the
    guard failures and type mismatches are not recorded. */
module Lua {
  import opened Wrappers
  import opened ScriptEngine

  /** A gopher-lua virtual machine, known by identity. */
  datatype Vm = Vm(id: nat)

  datatype LifeOp = InitOp | CloseOp

  /** One lifecycle call on a flag: the new flag and the returned error. */
  function Step(initialized: bool, op: LifeOp): (bool, Option<Error>)
  {
    match op
    case InitOp => if initialized then (true, Some(LuaAlreadyInitialized)) else (true, None)
    case CloseOp => if initialized then (false, None) else (false, Some(LuaNotInitialized))
  }

  /** A sequence of lifecycle calls from a starting flag: the final flag and
      the error each call returned, in order. */
  function Replay(initialized: bool, ops: seq<LifeOp>): (r: (bool, seq<Option<Error>>))
    ensures |r.1| == |ops|
    decreases |ops|
  {
    if ops == [] then (initialized, [])
    else
      var (next, err) := Step(initialized, ops[0]);
      var (last, errs) := Replay(next, ops[1..]);
      (last, [err] + errs)
  }

  /** Whatever the order of the calls, Init can only fail with
      AlreadyInitialized and Close only with NotInitialized, and the engine
      ends in the state the last call asked for. */
  lemma {:induction false} ReplayOnlyLifecycleErrors(initialized: bool, ops: seq<LifeOp>)
    ensures forall i :: 0 <= i < |ops| && Replay(initialized, ops).1[i].Some? ==>
              Replay(initialized, ops).1[i].value == (if ops[i] == InitOp then LuaAlreadyInitialized else LuaNotInitialized)
    ensures Replay(initialized, ops).0 == if ops == [] then initialized else ops[|ops| - 1] == InitOp
    decreases |ops|
  {
    if ops != [] {
      var next := Step(initialized, ops[0]).0;
      ReplayOnlyLifecycleErrors(next, ops[1..]);
      var errs := Replay(initialized, ops).1;
      forall i | 0 <= i < |ops| && errs[i].Some?
        ensures errs[i].value == (if ops[i] == InitOp then LuaAlreadyInitialized else LuaNotInitialized)
      {
        if i > 0 { assert ops[i] == ops[1..][i - 1]; }
      }
      if |ops| > 1 { assert ops[|ops| - 1] == ops[1..][|ops[1..]| - 1]; }
    }
  }

  /** Init and Close taken in turn, starting with Init on a fresh engine,
      never fail. */
  predicate Alternating(ops: seq<LifeOp>)
  {
    forall i :: 0 <= i < |ops| ==> ops[i] == (if i % 2 == 0 then InitOp else CloseOp)
  }

  lemma {:induction false} AlternatingNeverFails(ops: seq<LifeOp>)
    requires Alternating(ops)
    ensures forall i :: 0 <= i < |ops| ==> Replay(false, ops).1[i] == None
    decreases |ops|
  {
    if ops != [] {
      if |ops| == 1 {
        assert Replay(false, ops).1 == [None];
      } else {
        var tail := ops[2..];
        assert Alternating(tail) by {
          forall i | 0 <= i < |tail| ensures tail[i] == (if i % 2 == 0 then InitOp else CloseOp) {
            assert tail[i] == ops[i + 2];
          }
        }
        AlternatingNeverFails(tail);
        assert ops[1..][1..] == tail;
        var errs := Replay(false, ops).1;
        assert errs == [None, None] + Replay(false, tail).1;
      }
    }
  }

  class LuaEngine {
    var initialized: bool
    var vm: Option<Vm>
    var lastError: Option<Error>

    /** The engine owns a virtual machine exactly while initialized. */
    ghost predicate Valid()
      reads this
    {
      initialized <==> vm.Some?
    }

    constructor ()
      ensures Valid() && !initialized && lastError == None
    {
      initialized := false;
      vm := None;
      lastError := None;
    }

    method IsInitialized() returns (b: bool)
      ensures b == initialized
    {
      b := initialized;
    }

    method GetLastError() returns (err: Option<Error>)
      ensures err == lastError
    {
      err := lastError;
    }

    method ClearError()
      modifies this
      ensures lastError == None && initialized == old(initialized) && vm == old(vm)
    {
      lastError := None;
    }

    /** Creates the machine (`machine`) and clears the slot; on an initialized
        engine returns AlreadyInitialized and touches nothing. */
    method Init(machine: Vm) returns (err: Option<Error>)
      requires Valid()
      modifies this
      ensures Valid() && (initialized, err) == Step(old(initialized), InitOp)
      ensures old(initialized) ==> vm == old(vm) && lastError == old(lastError)
      ensures !old(initialized) ==> vm == Some(machine) && lastError == None
    {
      if initialized {
        return Some(LuaAlreadyInitialized);
      }
      vm := Some(machine);
      initialized := true;
      lastError := None;
      err := None;
    }

    /** Destroys the machine, leaving the slot alone; on an uninitialized
        engine returns NotInitialized. */
    method Close() returns (err: Option<Error>)
      requires Valid()
      modifies this
      ensures Valid() && (initialized, err) == Step(old(initialized), CloseOp)
      ensures vm == None && lastError == old(lastError)
    {
      if !initialized {
        return Some(LuaNotInitialized);
      }
      vm := None;
      initialized := false;
      err := None;
    }

    /** Loads a chunk into the machine; only the load error is recorded. */
    method LoadString(source: string, load: (Vm, string) -> Option<Error>) returns (err: Option<Error>)
      requires Valid()
      modifies this
      ensures Valid() && initialized == old(initialized) && vm == old(vm)
      ensures !old(initialized) ==> err == Some(LuaNotInitialized) && lastError == old(lastError)
      ensures old(initialized) ==> err == load(vm.value, source) &&
                                   lastError == (if err.Some? then err else old(lastError))
    {
      if !initialized {
        return Some(LuaNotInitialized);
      }
      err := load(vm.value, source);
      if err.Some? {
        lastError := err;
      }
    }

    /** Loads a file into the machine; only the load error is recorded. */
    method LoadFile(path: string, loadFile: (Vm, string) -> Option<Error>) returns (err: Option<Error>)
      requires Valid()
      modifies this
      ensures Valid() && initialized == old(initialized) && vm == old(vm)
      ensures !old(initialized) ==> err == Some(LuaNotInitialized) && lastError == old(lastError)
      ensures old(initialized) ==> err == loadFile(vm.value, path) &&
                                   lastError == (if err.Some? then err else old(lastError))
    {
      if !initialized {
        return Some(LuaNotInitialized);
      }
      err := loadFile(vm.value, path);
      if err.Some? {
        lastError := err;
      }
    }

    /** Reads the reader first, before any guard: a read error is recorded
        even on an uninitialized engine. */
    method LoadReader(contents: Result<string, Error>, load: (Vm, string) -> Option<Error>) returns (err: Option<Error>)
      requires Valid()
      modifies this
      ensures Valid() && initialized == old(initialized) && vm == old(vm)
      ensures contents.Failure? ==> err == Some(contents.error) && lastError == err
      ensures contents.Success? && !old(initialized) ==> err == Some(LuaNotInitialized) && lastError == old(lastError)
      ensures contents.Success? && old(initialized) ==>
                err == load(vm.value, contents.value) && lastError == (if err.Some? then err else old(lastError))
    {
      if contents.Failure? {
        lastError := Some(contents.error);
        return Some(contents.error);
      }
      err := LoadString(contents.value, load);
    }

    /** The shared shape of Execute, ExecuteString and ExecuteFile once past
        the guard: a cancellation or a machine error is recorded and
        returned; a success yields nil and leaves the slot alone. */
    method Finish(cancelled: Option<Error>, outcome: Option<Error>) returns (r: Result<Value, Error>)
      modifies this
      ensures initialized == old(initialized) && vm == old(vm)
      ensures cancelled.Some? ==> r == Failure(cancelled.value) && lastError == cancelled
      ensures cancelled.None? && outcome.Some? ==> r == Failure(outcome.value) && lastError == outcome
      ensures cancelled.None? && outcome.None? ==> r == Success(Nil) && lastError == old(lastError)
    {
      if cancelled.Some? {
        lastError := cancelled;
        return Failure(cancelled.value);
      }
      if outcome.Some? {
        lastError := outcome;
        return Failure(outcome.value);
      }
      r := Success(Nil);
    }

    /** Runs what is loaded; the result value is always nil. */
    method Execute(cancelled: Option<Error>, exec: Vm -> Option<Error>) returns (r: Result<Value, Error>)
      requires Valid()
      modifies this
      ensures Valid() && initialized == old(initialized) && vm == old(vm)
      ensures !old(initialized) ==> r == Failure(LuaNotInitialized) && lastError == old(lastError)
      ensures old(initialized) && cancelled.Some? ==> r == Failure(cancelled.value) && lastError == cancelled
      ensures old(initialized) && cancelled.None? ==>
                match exec(vm.value)
                case Some(e) => r == Failure(e) && lastError == Some(e)
                case None => r == Success(Nil) && lastError == old(lastError)
    {
      if !initialized {
        return Failure(LuaNotInitialized);
      }
      r := Finish(cancelled, exec(vm.value));
    }

    method ExecuteString(source: string, cancelled: Option<Error>, execString: (Vm, string) -> Option<Error>)
      returns (r: Result<Value, Error>)
      requires Valid()
      modifies this
      ensures Valid() && initialized == old(initialized) && vm == old(vm)
      ensures !old(initialized) ==> r == Failure(LuaNotInitialized) && lastError == old(lastError)
      ensures old(initialized) && cancelled.Some? ==> r == Failure(cancelled.value) && lastError == cancelled
      ensures old(initialized) && cancelled.None? ==>
                match execString(vm.value, source)
                case Some(e) => r == Failure(e) && lastError == Some(e)
                case None => r == Success(Nil) && lastError == old(lastError)
    {
      if !initialized {
        return Failure(LuaNotInitialized);
      }
      r := Finish(cancelled, execString(vm.value, source));
    }

    method ExecuteFile(path: string, cancelled: Option<Error>, execFile: (Vm, string) -> Option<Error>)
      returns (r: Result<Value, Error>)
      requires Valid()
      modifies this
      ensures Valid() && initialized == old(initialized) && vm == old(vm)
      ensures !old(initialized) ==> r == Failure(LuaNotInitialized) && lastError == old(lastError)
      ensures old(initialized) && cancelled.Some? ==> r == Failure(cancelled.value) && lastError == cancelled
      ensures old(initialized) && cancelled.None? ==>
                match execFile(vm.value, path)
                case Some(e) => r == Failure(e) && lastError == Some(e)
                case None => r == Success(Nil) && lastError == old(lastError)
    {
      if !initialized {
        return Failure(LuaNotInitialized);
      }
      r := Finish(cancelled, execFile(vm.value, path));
    }

    /** Binds a global in the machine; only the guard is observable here. */
    method RegisterGlobal(name: string, value: Value) returns (err: Option<Error>)
      ensures err == (if initialized then None else Some(LuaNotInitialized))
    {
      if !initialized {
        return Some(LuaNotInitialized);
      }
      err := None;
    }

    /** Reads a global from the machine (`lookup` is what the machine holds,
        converted back); never records an error. */
    method GetGlobal(name: string, lookup: (Vm, string) -> Value) returns (r: Result<Value, Error>)
      requires Valid()
      ensures !initialized ==> r == Failure(LuaNotInitialized)
      ensures initialized ==> r == Success(lookup(vm.value, name))
    {
      if !initialized {
        return Failure(LuaNotInitialized);
      }
      r := Success(lookup(vm.value, name));
    }

    /** Accepts only a Go function of gopher-lua's `LGFunction` type; any
        other value, another Go function included, is a type mismatch, which
        is returned but not recorded. */
    method RegisterFunction(name: string, fn: Value) returns (err: Option<Error>)
      ensures !initialized ==> err == Some(LuaNotInitialized)
      ensures initialized ==> (err.None? <==> fn.LuaFunction?)
      ensures initialized && err.Some? ==> err == Some(LuaFunctionTypeMismatch)
    {
      if !initialized {
        return Some(LuaNotInitialized);
      }
      if fn.LuaFunction? {
        return None;
      }
      err := Some(LuaFunctionTypeMismatch);
    }

    /** Accepts only an `LGFunction` as a module loader; any other value is a
        type mismatch. */
    method RegisterModule(name: string, loader: Value) returns (err: Option<Error>)
      ensures !initialized ==> err == Some(LuaNotInitialized)
      ensures initialized ==> (err.None? <==> loader.LuaFunction?)
      ensures initialized && err.Some? ==> err == Some(LuaModuleTypeMismatch)
    {
      if !initialized {
        return Some(LuaNotInitialized);
      }
      if loader.LuaFunction? {
        return None;
      }
      err := Some(LuaModuleTypeMismatch);
    }

    /** Calls the global `name`. There is no guard before the call, so on an
        uninitialized engine NotInitialized comes back through the result
        and IS recorded. A success leaves the slot alone. */
    method CallFunction(name: string, args: seq<Value>, cancelled: Option<Error>,
                        call: (Vm, string, seq<Value>) -> Result<Value, Error>) returns (r: Result<Value, Error>)
      requires Valid()
      modifies this
      ensures Valid() && initialized == old(initialized) && vm == old(vm)
      ensures cancelled.Some? ==> r == Failure(cancelled.value) && lastError == cancelled
      ensures cancelled.None? && !old(initialized) ==> r == Failure(LuaNotInitialized) && lastError == Some(LuaNotInitialized)
      ensures cancelled.None? && old(initialized) ==>
                r == call(vm.value, name, args) && lastError == (if r.Failure? then Some(r.error) else old(lastError))
    {
      var outcome: Result<Value, Error>;
      if !initialized {
        outcome := Failure(LuaNotInitialized);
      } else {
        outcome := call(vm.value, name, args);
      }
      if cancelled.Some? {
        lastError := cancelled;
        return Failure(cancelled.value);
      }
      if outcome.Failure? {
        lastError := Some(outcome.error);
      }
      r := outcome;
    }
  }

  /** Init, a cancelled Execute, Close, Init on one engine: the lifecycle
      calls succeed, the cancellation error survives Close, and only the
      second Init clears it, with a new machine. */
  method ReinitScenario(e: LuaEngine, first: Vm, second: Vm, bad: Option<Error>)
    returns (err1: Option<Error>, err2: Option<Error>, kept: Option<Error>, err3: Option<Error>, slot: Option<Error>)
    requires e.Valid() && !e.initialized && bad.Some?
    modifies e
    ensures err1 == None && err2 == None && err3 == None
    ensures kept == bad
    ensures e.initialized && e.vm == Some(second) && slot == None
  {
    err1 := e.Init(first);
    var _ := e.Execute(bad, _ => None);
    err2 := e.Close();
    kept := e.GetLastError();
    err3 := e.Init(second);
    slot := e.GetLastError();
  }
}
