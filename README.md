# go-scripts bookkeeping core in Dafny

go-scripts puts JavaScript (goja) and Lua (gopher-lua) behind one `Engine`
interface. It holds no interpreter of its own. What it adds is the
bookkeeping around the interpreters, and this project models that part as
sequential Dafny classes with proved contracts:

- **Factory registry**: a map from engine type to factory function. It
  refuses duplicate registration, supports lookup, listing and removal, and
  builds an engine through the registered factory (`factory.dfy`).
- **Manager**: named engines plus a default name. `InitAll` stops at the
  first Init error. `CloseAll` calls Close once per registered name, empties the registry
  and reports the last Close error (`manager.dfy`).
- **Fixed-size engine pool**: a FIFO queue of idle engines, created and
  initialized all-or-nothing. It has a terminal `closed` flag, a bounded
  `Release` and the acquire-call-release wrappers (`engine_pool.dfy`, with
  the shared creation loop in `pool_common.dfy`).
- **Auto-growing pool**: the same queue plus a count of the engines that
  exist. An engine is created on demand up to a cap, and the count is
  rolled back when the factory fails (`engine_pool_autogrow.dfy`).
- **Lua state pool**: a bounded LIFO stack of interpreter states with a
  terminal `closed` flag (`state_pool.dfy`).
- **JavaScript engine**: a lifecycle flag, the list of compiled programs,
  the runtime's globals and a last-error slot. Every failure records it,
  and most successes clear it (`javascript_engine.dfy`).
- **Lua engine**: a lifecycle flag, the virtual machine it owns and a
  last-error slot. It records errors only on some paths
  (`lua_engine.dfy`).

The model treats the interpreters and engines as handles it cannot see
into. What a foreign call returns is a function parameter:

- `newEngine(i)`: the i-th factory call.
- `initResult(e)` and `closeResult(e)`: an engine's Init and Close.
- `compile`, `run`, `exec`, `call`: the interpreter's compile, run and call.
  A run or call is given the runtime's globals and returns its result
  together with the globals it leaves behind, so a function a script
  defines can be called afterwards.
- The Lua `load*` and `exec*` functions: the virtual machine's operations.

Methods return the engines they closed, so "which engines were closed, in
which order" is part of each contract. A channel receive that would block
is the outcome `WouldBlock`. Where an operation blocks before taking
anything (both pools' `Acquire` and `Delegate`) it leaves the state
unchanged. `FixedPool.EnginePool.InitAll` can block part-way through its
receive loop: its `InitAllBlocked` outcome keeps the engines already taken,
so the idle queue is then empty. A cancelled
context is an error result. Go map iteration order is unspecified, so
`ScriptEngine.EnumerateKeys` promises no order.

## Model

| member | source | states |
|---|---|---|
| ScriptEngine.EnumerateKeys | factory.go:45-53 | lists every key of a map exactly once (same count, membership both ways, no duplicates) in an unspecified order, as ranging over a Go map does |
| ScriptEngine.LastError | manager.go:77-83 | the error a close-everything loop keeps: each call's error overwrites the kept one, so it is the error of the last call that failed, or nil (also engine_pool.go:118-124 and engine_pool_autogrow.go:153-159) |
| ScriptEngine.LastErrorNoneIff | manager.go:67-84 | the error kept by a close-everything loop is nil exactly when every Close returned nil |
| ScriptEngine.LastErrorIsLastFailure | manager.go:67-84 | when that error is non-nil it is the error of some Close call, and every later Close returned nil: the last error wins |
| ScriptEngine.FirstError | manager.go:58-63 | the error a stop-at-first-failure loop returns: the first call's error if it failed, otherwise that of the rest, or nil (also engine_pool.go:152-159) |
| ScriptEngine.FirstErrorIsFirstFailure | manager.go:50-64 | the error returned by a stop-at-first-failure loop is nil exactly when all calls succeed; otherwise it is the error of a failing call and every earlier call succeeded |
| Factory.Registry.constructor | factory.go:11-14 | the registry starts empty |
| Factory.Registry.Register | factory.go:26-34 | fails with "already registered" exactly when the type is bound, leaving the map unchanged; otherwise binds the type to the factory |
| Factory.Registry.GetFactory | factory.go:37-42 | finds a factory exactly when the type is bound, and it is the bound one |
| Factory.Registry.ListFactories | factory.go:45-53 | returns every registered type exactly once |
| Factory.Registry.Unregister | factory.go:56-64 | reports true exactly when the type was bound; afterwards the type is unbound and nothing else changed |
| Factory.Registry.NewScriptEngine | factory.go:17-23 | an unregistered type gives "factory not registered" for that type; otherwise the result is what the registered factory returns |
| Factory.ReregisterScenario | factory.go:26-64 | register, register again, unregister, register anew: the second call is refused, removal succeeds and the type then resolves to the new factory |
| ManagerRegistry.Manager.constructor | manager.go:20-24 | a new manager has no engines and no default name |
| ManagerRegistry.Manager.Register | manager.go:28-39 | an empty name or nil engine is invalid; a taken name is refused; exactly the valid, fresh names are added and nothing else changes |
| ManagerRegistry.Manager.Get | manager.go:42-47 | finds an engine exactly when the name is registered, and it is that name's engine |
| ManagerRegistry.Manager.InitAll | manager.go:50-64 | calls Init once per registered name (an engine registered under two names is called twice), in visiting order until the first failure; returns nil when all succeed, otherwise the failing Init's error, with all earlier Inits successful |
| ManagerRegistry.Manager.CloseAll | manager.go:67-84 | calls Close once per registered name (an engine registered under two names is closed twice), empties the registry, keeps the default name and returns the last non-nil Close error; with nothing registered nothing is closed and nil is returned |
| ManagerRegistry.Manager.Remove | manager.go:87-98 | unregisters the name; closes its engine exactly when it was registered and closing was requested |
| ManagerRegistry.Manager.SetDefault | manager.go:101-105 | sets the default name and leaves the engines alone |
| ManagerRegistry.Manager.GetDefault | manager.go:108-110 | finds the engine of the default name exactly when that name is registered |
| ManagerRegistry.CloseAllTwiceScenario | manager.go:67-110 | after CloseAll both engines were closed once, a second CloseAll closes nothing and returns nil, and the default name dangles |
| PoolCommon.Construct | engine_pool.go:32-53 | the creation loop of both pools from the engines created so far: stop with all `size` engines; on a factory error, close the created engines; on an Init error, close the failing engine, then the created ones; otherwise keep the engine and go on (the auto-growing pool, engine_pool_autogrow.go:41-58, passes an Init that never fails) |
| PoolCommon.ConstructFrom | engine_pool.go:32-53 | the creation loop, from any healthy prefix: either all `size` engines are created and initialized, in call order, or creation stops at the first bad call, and exactly the engines produced up to it are closed |
| PoolCommon.ConstructAllOrNothing | engine_pool.go:32-53 | pool construction from scratch is all-or-nothing in the sense above |
| FixedPool.EnginePool.constructor | engine_pool.go:27-58 | a built pool holds its `size` engines, open |
| FixedPool.EnginePool.Acquire | engine_pool.go:64-77 | a closed pool refuses with "pool closed"; an empty queue blocks; otherwise the oldest idle engine is handed out and removed |
| FixedPool.EnginePool.Release | engine_pool.go:80-105 | nil is ignored; on a closed pool, or when the queue is full, the engine is closed; otherwise it is queued at the tail; the queue never exceeds `size` |
| FixedPool.EnginePool.Close | engine_pool.go:108-125 | the first call marks the pool closed, closes every idle engine in queue order and returns the last Close error; a second call does nothing and returns nil |
| FixedPool.EnginePool.IsClosed | engine_pool.go:128-132 | reports the closed flag |
| FixedPool.EnginePool.InitAll | engine_pool.go:137-166 | on a closed pool fails with "pool closed"; otherwise takes out all `size` engines and Inits them in order; on the first failure closes all of them and returns that Init error wrapped; on success puts them all back in the same order |
| FixedPool.EnginePool.Delegate | engine_pool.go:168-319 | each wrapper forwards to the engine at the head of the queue and returns its result, or the Acquire error; the engine goes back to the tail |
| FixedPool.NewEnginePool | engine_pool.go:22-61 | a size below one is invalid; otherwise the pool holds exactly the engines the creation loop builds, or fails with the wrapped factory or Init error after closing what was created |
| AutoGrow.AutoGrowEnginePool.constructor | engine_pool_autogrow.go:32-57 | a built pool holds its initial engines, counts them as existing and is open |
| AutoGrow.AutoGrowEnginePool.Acquire | engine_pool_autogrow.go:64-101 | a closed pool refuses; an idle engine is handed out first; with none idle and fewer than `max` in existence, a new one is created and counted, and a factory failure returns its error with the count unchanged; at the cap it blocks |
| AutoGrow.AutoGrowEnginePool.Release | engine_pool_autogrow.go:104-140 | nil is ignored; a closed pool closes the engine; a full queue closes it and decrements the count, never below zero; otherwise it is queued |
| AutoGrow.AutoGrowEnginePool.Close | engine_pool_autogrow.go:143-160 | the first call marks the pool closed, closes every idle engine and returns the last Close error; a second call does nothing |
| AutoGrow.AutoGrowEnginePool.Delegate | engine_pool_autogrow.go:162-187 | each wrapper (the Load wrappers here and those at engine_pool_autogrow.go:198-277; Execute at 189-196 is left out) forwards to an idle engine, or to one created on demand, which then stays idle in the pool; at the cap the call blocks |
| AutoGrow.NewAutoGrowEnginePool | engine_pool_autogrow.go:25-61 | sizes with max < 1, initial < 0 or initial > max are invalid; an empty type is refused; otherwise creates the initial engines without Init, all-or-nothing, closing the created ones on a factory failure |
| AutoGrow.GrowToCapScenario | engine_pool_autogrow.go:64-101 | with one initial engine and a cap of three, five acquirers get the idle engine, then two new ones, and the fourth and fifth block: at most `max` engines exist |
| LuaStatePool.StatePool.constructor | lua/state_pool.go:30-45 | a new pool is open, with an empty stack and a limit of 10 |
| LuaStatePool.StatePool.Borrow | lua/state_pool.go:72-89 | pops and returns the most recently saved state; with none saved returns a newly created state and leaves the stack empty, open or closed |
| LuaStatePool.StatePool.Return | lua/state_pool.go:92-114 | nil is ignored; a closed pool or a full stack closes the state; otherwise it is pushed; the stack never exceeds the limit |
| LuaStatePool.StatePool.Shutdown | lua/state_pool.go:117-133 | the first call marks the pool closed, empties the stack and closes every saved state; later calls close nothing |
| LuaStatePool.ReturnBorrowScenario | lua/state_pool.go:72-114 | on an open pool with room, Return then Borrow gives back the same state and leaves the stack as before |
| JavaScript.RunAll | javascript/javascript_engine.go:231-242 | runs the elements in order, each in the globals the previous run left, collecting one result each; returns only the first error, dropping the results gathered so far, and the globals left behind (the same loop shape as ExecuteStrings, javascript/javascript_engine.go:334-342) |
| JavaScript.RunAllMeaning | javascript/javascript_engine.go:214-243 | running a list succeeds exactly when every element succeeds in the globals the earlier ones left, giving one result per element in order and the globals the last run left; a failure is the first failing element's error, with all earlier ones successful and the globals that failing run left |
| JavaScript.RunAllSnoc | javascript/javascript_engine.go:293-311 | running a list with one more program appended is running the list, then that program in the globals the list left |
| JavaScript.LastResult | javascript/javascript_engine.go:304-310 | ExecuteFile's selection from the result list: its last element, or nil when it is empty |
| JavaScript.LastResultIsNewest | javascript/javascript_engine.go:293-311 | after appending a program, a successful run's last result is that program's own result, computed in the globals the earlier programs left, and the final globals are the ones it left |
| JavaScript.LoadMany | javascript/javascript_engine.go:185-201 | compiles the items in order and stops at the first error, returning the programs compiled before it and that error, or all programs and nil |
| JavaScript.ReadAndCompile | javascript/javascript_engine.go:145-155 | LoadFile's loading step: a read error, otherwise the outcome of compiling what was read |
| JavaScript.LoadManyMeaning | javascript/javascript_engine.go:185-201 | batch loading keeps exactly the programs of the items before the first failure, in order; the error is that item's, or nil when everything compiled |
| JavaScript.ExecuteFilesFrom | javascript/javascript_engine.go:345-355 | ExecuteFiles from a program list and globals: for each path, load its program, run all loaded programs in the current globals and keep the last result; stop at the first error; returns the outcome, the final program list and the final globals |
| JavaScript.ExecuteFilesOnePerPath | javascript/javascript_engine.go:345-355 | a successful ExecuteFiles returns one result per path and leaves each file's program loaded after the earlier ones, in path order |
| JavaScript.JsEngine.constructor | javascript/javascript_engine.go:41-45 | a new engine is uninitialized, with no programs, no globals and no error |
| JavaScript.JsEngine.GetType | javascript/javascript_engine.go:47-49 | the engine's type is "javascript" |
| JavaScript.JsEngine.IsInitialized | javascript/javascript_engine.go:107-111 | reports the lifecycle flag |
| JavaScript.JsEngine.GetLastError | javascript/javascript_engine.go:501-505 | returns the error slot |
| JavaScript.JsEngine.SetLastError | javascript/javascript_engine.go:507-511 | records the error and changes nothing else |
| JavaScript.JsEngine.ClearError | javascript/javascript_engine.go:514-518 | empties the error slot and changes nothing else |
| JavaScript.JsEngine.Init | javascript/javascript_engine.go:52-72 | on an initialized engine fails with "already initialized", records it and changes nothing else; otherwise becomes initialized with a fresh runtime whose globals are exactly the interpreter's built-ins, and an empty slot |
| JavaScript.JsEngine.Close | javascript/javascript_engine.go:75-96 | on an uninitialized engine fails with "not initialized" and records it; otherwise drops the runtime and all programs and clears the slot |
| JavaScript.JsEngine.ClearPrograms | javascript/javascript_engine.go:99-104 | empties the program list, leaving the flag, globals and slot alone |
| JavaScript.JsEngine.LoadString | javascript/javascript_engine.go:114-136 | uninitialized: "not initialized", recorded; compile error: recorded, list unchanged; success: exactly the new program appended at the end and the slot cleared |
| JavaScript.JsEngine.LoadFile | javascript/javascript_engine.go:139-167 | as LoadString, with a read error handled like a compile error |
| JavaScript.JsEngine.LoadReader | javascript/javascript_engine.go:170-183 | the guard, then a read error is recorded; otherwise behaves as LoadString on what was read |
| JavaScript.JsEngine.LoadStrings | javascript/javascript_engine.go:185-192 | loads in order and stops at the first failure; the list grows by exactly the batch-loaded programs and the error is the batch error |
| JavaScript.JsEngine.LoadFiles | javascript/javascript_engine.go:194-201 | the same for files, each read then compiled |
| JavaScript.JsEngine.RunProgram | javascript/javascript_engine.go:531-569 | uninitialized: "not initialized", recorded, globals unchanged; otherwise the program's run result in the runtime's globals, which become the ones the run left; the error is recorded or the slot cleared |
| JavaScript.JsEngine.ExecuteProgram | javascript/javascript_engine.go:204-211 | the same as RunProgram, globals included, behind a second identical guard |
| JavaScript.JsEngine.ExecuteLoaded | javascript/javascript_engine.go:214-243 | uninitialized: "not initialized"; no programs: "no program loaded", recorded; otherwise runs all programs in load order with the run-all semantics above, the globals becoming those the runs left, recording the error or clearing the slot; the list is kept |
| JavaScript.JsEngine.ExecuteString | javascript/javascript_engine.go:246-290 | uninitialized: "not initialized", recorded, globals unchanged; otherwise the script's result in the runtime's globals, which become the ones it left (a function it defines stays defined); the error is recorded or the slot cleared |
| JavaScript.JsEngine.ExecuteStrings | javascript/javascript_engine.go:333-343 | one result per source, in order, each source run in the globals the previous one left, or only the first error; the globals end as the runs left them; an empty batch returns no results and leaves the slot and globals alone |
| JavaScript.JsEngine.ExecuteFile | javascript/javascript_engine.go:293-311 | a load failure is returned with the globals unchanged; otherwise the file's program stays loaded, all programs are run in order, the globals become those the runs left, and the result is the last one, which is the file's own |
| JavaScript.JsEngine.ExecuteFiles | javascript/javascript_engine.go:345-355 | ExecuteFile on each path in order, stopping at the first error; each step re-runs everything loaded so far in the globals the earlier steps left; results, programs and globals are exactly ExecuteFilesFrom's |
| JavaScript.JsEngine.RegisterGlobal | javascript/javascript_engine.go:314-331 | uninitialized: "not initialized", recorded; otherwise binds the name in the runtime's globals and clears the slot |
| JavaScript.JsEngine.GetGlobal | javascript/javascript_engine.go:358-381 | uninitialized: "not initialized"; an unbound name: "global not found", recorded; otherwise the bound value, with the slot cleared |
| JavaScript.JsEngine.RegisterFunction | javascript/javascript_engine.go:384-402 | as RegisterGlobal, binding the function |
| JavaScript.JsEngine.CallFunction | javascript/javascript_engine.go:405-469 | uninitialized: "not initialized"; an unbound name: "function not found"; a non-function: "not a function", both with the globals unchanged; otherwise the function is called in the runtime's globals, giving the call's result and the globals it left; every error is recorded and a success clears the slot |
| JavaScript.JsEngine.RegisterModule | javascript/javascript_engine.go:472-498 | as RegisterGlobal; a map module becomes an object with the same fields |
| JavaScript.GlobalRoundTripScenario | javascript/javascript_engine.go:52-381 | right after Init a built-in reads back; a registered global reads back as registered; after Close reading fails with "not initialized", which is recorded |
| JavaScript.ScriptDefinedFunctionScenario | javascript/javascript_engine_test.go:44-61 | after Init, a script that defines a function returns its own result, and CallFunction then finds that function among the globals the script left and returns what calling it gives |
| Lua.Step | lua/lua_engine.go:36-65 | one Init or Close on the lifecycle flag: Init on an initialized engine returns "already initialized", Close on an uninitialized one returns "not initialized", otherwise the flag becomes true for Init and false for Close with no error |
| Lua.Replay | lua/lua_engine.go:36-65 | a trace of Init/Close calls yields one error per call |
| Lua.ReplayOnlyLifecycleErrors | lua/lua_engine_test.go:158-173 | under any sequence of Init and Close calls, Init fails only with "already initialized" and Close only with "not initialized", and the final state is the one the last call asked for |
| Lua.AlternatingNeverFails | lua/lua_engine.go:36-65 | Init and Close taken in turn, starting with Init on a new engine, never fail |
| Lua.LuaEngine.constructor | lua/lua_engine.go:29-33 | a new engine is uninitialized, with no machine and no error |
| Lua.LuaEngine.IsInitialized | lua/lua_engine.go:68-72 | reports the lifecycle flag |
| Lua.LuaEngine.GetLastError | lua/lua_engine.go:365-370 | returns the error slot |
| Lua.LuaEngine.ClearError | lua/lua_engine.go:373-378 | empties the error slot |
| Lua.LuaEngine.Init | lua/lua_engine.go:36-49 | on an initialized engine returns "already initialized" and touches nothing, not even the slot; otherwise owns a new machine and clears the slot |
| Lua.LuaEngine.Close | lua/lua_engine.go:52-65 | on an uninitialized engine returns "not initialized"; otherwise drops the machine; the slot is never touched |
| Lua.LuaEngine.LoadString | lua/lua_engine.go:75-89 | uninitialized: "not initialized", not recorded; otherwise the machine's load result, recorded only when it is an error |
| Lua.LuaEngine.LoadFile | lua/lua_engine.go:92-106 | as LoadString for a file |
| Lua.LuaEngine.LoadReader | lua/lua_engine.go:109-117 | a read error is recorded before any guard, even when uninitialized; otherwise behaves as LoadString |
| Lua.LuaEngine.Finish | lua/lua_engine.go:143-158 | a cancellation wins and is recorded; a machine error is recorded and returned; a success gives nil and leaves the slot |
| Lua.LuaEngine.Execute | lua/lua_engine.go:120-159 | uninitialized: "not initialized", not recorded; otherwise the cancellation or machine error, recorded, or a nil result |
| Lua.LuaEngine.ExecuteString | lua/lua_engine.go:162-201 | as Execute for a source string; success is always a nil value |
| Lua.LuaEngine.ExecuteFile | lua/lua_engine.go:204-242 | as Execute for a file |
| Lua.LuaEngine.RegisterGlobal | lua/lua_engine.go:245-255 | fails with "not initialized" exactly when uninitialized; never records |
| Lua.LuaEngine.GetGlobal | lua/lua_engine.go:258-268 | uninitialized: "not initialized"; otherwise the machine's value for the name; never records |
| Lua.LuaEngine.RegisterFunction | lua/lua_engine.go:271-286 | uninitialized: "not initialized"; otherwise succeeds exactly for a Go function of gopher-lua's `LGFunction` type (a `LuaFunction`) and fails with "function must be of type Lua.LGFunction" for anything else, another callable Go function included; never records |
| Lua.LuaEngine.RegisterModule | lua/lua_engine.go:348-362 | the same for a module loader: succeeds exactly for a `LuaFunction`, otherwise fails with "module must be of type Lua.LGFunction" |
| Lua.LuaEngine.CallFunction | lua/lua_engine.go:289-345 | no guard beforehand: uninitialized gives "not initialized", and it IS recorded; a cancellation wins and is recorded; otherwise the call's result, with an error recorded and a success leaving the slot |
| Lua.ReinitScenario | lua/lua_engine.go:36-65 | Init, a cancelled Execute, Close, Init: the lifecycle calls succeed, the error survives Close, and the second Init clears it and owns a new machine |

## Left out

- Goroutines, channels and `ctx.Done()` races. Cancellation is an error
  result: the run and call outcomes on the JavaScript side, and a
  `cancelled` argument on the Lua side. When several outcomes are ready at
  once, Go picks one at random; the model does not capture that choice.
- Cancellation that arrives while a script runs. The watcher has to take
  the lock that the running call holds, so it acts only once the run has
  ended. On the Lua side (lua/lua_engine.go:131-147, and likewise
  171-190, 214-231 and 297-336) the call then returns and records
  `ctx.Err()`. On the JavaScript side (javascript/javascript_engine.go:255-262,
  411-425 and 537-551, waiting on the lock held at 521-527) the run's own
  result is returned, and `Interrupt` reaches an idle runtime, so it is a
  later run that gets interrupted. The model folds both into the outcome
  or `cancelled` argument of the call itself.
- Lua.LuaEngine.Execute: when the cancellation wins the lock before the
  worker goroutine starts, the call returns `ctx.Err()` and the virtual
  machine then runs in the background. The model has no background work.
- Mutexes and read-write locks. They only serialise access, and the
  sequential model is serial already.
- `recover()` around interpreter calls in the JavaScript engine. A
  recovered panic, which the source returns as a nil value with a nil
  error, is not modelled.
- goja and gopher-lua internals. These are compiling, running, calling,
  `Export`, `ToValue`, `AssertFunction` and the `virtualMachine` wrapper.
  They are function parameters whose results the model takes as given. The
  `virtualMachine` source file is not part of this model.
- JavaScript.JsEngine.Init: the runtime's built-ins are an argument.
  The model does not list what they are, and which of them are functions.
- JavaScript.JsEngine.GetGlobal: takes it that exporting a value set with
  `runtime.Set` gives the same value back. Built-ins are seen as Init
  supplied them, and globals that scripts define as the run outcomes
  return them.
- JavaScript.JsEngine.CallFunction: a value is callable exactly when it is
  a `HostFunction` or a `LuaFunction`. Built-in functions such as
  `parseInt` must be supplied to Init in that form, and functions a script
  defines must be returned in that form by the run outcome.
- Lua.LuaEngine.RegisterGlobal: what binding a value does to the Lua state
  is not modelled (`BindStruct` is foreign). The same holds for what
  Lua.LuaEngine.RegisterFunction and Lua.LuaEngine.RegisterModule do on
  success.
- The `ErrJavascriptRuntimeNotInitialized` branches. The runtime is set
  exactly while the engine is initialized, and the guard before them
  already excludes that case. `withRuntime` is folded into its callers.
- AutoGrowEnginePool.Execute: it calls a method that the `Engine` interface
  does not declare, so it has no behaviour to model.
- FixedPool.EnginePool.Delegate: one generic member stands for the
  acquire-call-release wrappers. What each wrapped engine operation does is
  the `call` argument. The same holds for AutoGrow.AutoGrowEnginePool.Delegate.
- AutoGrow.AutoGrowEnginePool.Release: an engine that does not belong to
  the pool is accepted like any other. "Idle plus borrowed equals `total`"
  is therefore not an invariant of the source, and the model does not
  claim it.
- FixedPool.EnginePool.InitAll: on a pool built by NewEnginePool, the
  engines were already initialized. An Init oracle that refuses a second
  Init makes InitAll fail in the model, as it would in the source.
- The package-level `luaPool` variable, `SetOptions`, and the options of
  `createLuaState`. These are interpreter configuration with no behaviour
  to prove. A new state is the `created` argument of `Borrow`.
- The `init()` functions that register each engine's factory at start-up
  (lua/lua_engine.go:14-18, javascript/javascript_engine.go:15-19). They
  are calls of Factory.Registry.Register.
- The Lua engine defines no `GetType`, `ExecuteLoaded` or batch
  operations, although the `Engine` interface declares them. The model
  gives it only the operations lua/lua_engine.go defines.
- Foreign outcomes are functions, so the same engine or program gives the
  same result each time within one modelled call.
- Lua argument conversion (`convertToLValue`, `convertFromLValue`) is part
  of the machine outcomes.
