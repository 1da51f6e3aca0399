/** The fixed-size engine pool of engine_pool.go. The buffered channel of
    capacity `size` is the FIFO `pool` (head first); `closed` is set once. */
module FixedPool {
  import opened Wrappers
  import opened ScriptEngine
  import opened PoolCommon

  /** How the pool-wide InitAll ended; `InitAllBlocked` means it took every
      idle engine and would now wait for a borrowed one to come back. */
  datatype InitAllOutcome = InitAllDone | InitAllFailed(err: Error) | InitAllBlocked

  function WrapCreationFailure(f: CreationFailure): Error
  {
    match f
    case FactoryError(e) => FactoryFailed(e)
    case InitError(e) => InitFailed(e)
  }

  class EnginePool {
    var pool: seq<Engine>
    const size: nat
    var closed: bool

    /** The queue never exceeds its capacity, and a closed pool holds no idle
        engine (Close drained it and Release no longer enqueues). */
    ghost predicate Valid()
      reads this
    {
      size >= 1 && |pool| <= size && (closed ==> pool == [])
    }

    constructor (size: nat, engines: seq<Engine>)
      requires size >= 1 && |engines| == size
      ensures Valid() && this.size == size && pool == engines && !closed
    {
      this.size := size;
      pool := engines;
      closed := false;
    }

    /** Takes the head of the queue; fails on a closed pool; would block on an
        open empty one. */
    method Acquire() returns (r: Acquisition)
      requires Valid()
      modifies this
      ensures Valid() && closed == old(closed)
      ensures old(closed) ==> r == Refused(PoolClosed) && pool == old(pool)
      ensures !old(closed) && old(pool) == [] ==> r == WouldBlock && pool == old(pool)
      ensures !old(closed) && old(pool) != [] ==> r == Acquired(old(pool)[0]) && pool == old(pool)[1..]
    {
      if closed {
        return Refused(PoolClosed);
      }
      if pool == [] {
        return WouldBlock;
      }
      r := Acquired(pool[0]);
      pool := pool[1..];
    }

    /** Hands an engine back: nil is ignored; on a closed pool, or when the
        queue is full, the engine is closed instead of enqueued. */
    method Release(e: Option<Engine>) returns (d: Disposal)
      requires Valid()
      modifies this
      ensures Valid() && closed == old(closed)
      ensures e.None? ==> d == Ignored && pool == old(pool)
      ensures e.Some? && old(closed) ==> d == Closed && pool == old(pool)
      ensures e.Some? && !old(closed) && |old(pool)| < size ==> d == Stored && pool == old(pool) + [e.value]
      ensures e.Some? && !old(closed) && |old(pool)| == size ==> d == Closed && pool == old(pool)
    {
      if e.None? {
        return Ignored;
      }
      if closed {
        return Closed;
      }
      if |pool| < size {
        pool := pool + [e.value];
        d := Stored;
      } else {
        d := Closed;
      }
    }

    /** The first call marks the pool closed, closes every idle engine in queue
        order and returns the last Close error; later calls do nothing. */
    method Close(closeResult: Engine -> Option<Error>) returns (err: Option<Error>, drained: seq<Engine>)
      requires Valid()
      modifies this
      ensures Valid() && closed && pool == []
      ensures old(closed) ==> err == None && drained == []
      ensures !old(closed) ==> drained == old(pool) && err == LastError(drained, closeResult)
    {
      if closed {
        return None, [];
      }
      closed := true;
      err, drained := None, [];
      while pool != []
        invariant closed && drained + pool == old(pool)
        invariant err == LastError(drained, closeResult)
        decreases |pool|
      {
        var eng := pool[0];
        pool := pool[1..];
        var r := closeResult(eng);
        if r.Some? {
          err := r;
        }
        assert (drained + [eng])[..|drained|] == drained;
        drained := drained + [eng];
      }
    }

    method IsClosed() returns (b: bool)
      ensures b == closed
    {
      b := closed;
    }

    /** Acquires `size` engines, calls Init on each and releases them all. On a
        closed pool the first Acquire fails. If an Init fails, every acquired
        engine is closed and none goes back to the queue. */
    method InitAll(initResult: Engine -> Option<Error>) returns (outcome: InitAllOutcome, closedEngines: seq<Engine>)
      requires Valid()
      modifies this
      ensures Valid() && closed == old(closed)
      ensures old(closed) ==> outcome == InitAllFailed(PoolClosed) && closedEngines == [] && pool == old(pool)
      ensures !old(closed) && |old(pool)| < size ==> outcome == InitAllBlocked && closedEngines == [] && pool == []
      ensures !old(closed) && |old(pool)| == size && FirstError(old(pool), initResult).Some? ==>
                outcome == InitAllFailed(InitFailed(FirstError(old(pool), initResult).value)) &&
                closedEngines == old(pool) && pool == []
      ensures !old(closed) && |old(pool)| == size && FirstError(old(pool), initResult).None? ==>
                outcome == InitAllDone && closedEngines == [] && pool == old(pool)
    {
      var engines: seq<Engine> := [];
      var i := 0;
      while i < size
        invariant 0 <= i <= size && Valid() && closed == old(closed)
        invariant closed ==> i == 0 && pool == old(pool)
        invariant i <= |old(pool)| && engines == old(pool)[..i] && pool == old(pool)[i..]
      {
        var a := Acquire();
        match a
        case Refused(err) =>
          return InitAllFailed(err), engines;
        case WouldBlock =>
          return InitAllBlocked, [];
        case Acquired(eng) =>
          engines := engines + [eng];
        i := i + 1;
      }
      assert engines == old(pool);
      var k := 0;
      while k < |engines|
        invariant 0 <= k <= |engines|
        invariant FirstError(engines, initResult) == FirstError(engines[k..], initResult)
      {
        assert engines[k..][1..] == engines[k + 1..];
        var r := initResult(engines[k]);
        if r.Some? {
          return InitAllFailed(InitFailed(r.value)), engines;
        }
        k := k + 1;
      }
      k := 0;
      while k < |engines|
        invariant 0 <= k <= |engines| && Valid() && !closed
        invariant pool == engines[..k]
      {
        var d := Release(Some(engines[k]));
        assert engines[..k + 1] == engines[..k] + [engines[k]];
        k := k + 1;
      }
      assert engines[..|engines|] == engines;
      outcome, closedEngines := InitAllDone, [];
    }

    /** The acquire -> call -> release wrappers (LoadString, ExecuteString,
        CallFunction, GetLastError, ...): `call(e)` is what the engine's own
        operation returns and `onRefused` turns the Acquire error into the
        wrapper's result. The engine used is the head of the queue and goes
        back to its tail. `None` means the Acquire would block. */
    method Delegate<T>(call: Engine -> T, onRefused: Error -> T) returns (r: Option<T>)
      requires Valid()
      modifies this
      ensures Valid() && closed == old(closed)
      ensures old(closed) ==> r == Some(onRefused(PoolClosed)) && pool == old(pool)
      ensures !old(closed) && old(pool) == [] ==> r == None && pool == old(pool)
      ensures !old(closed) && old(pool) != [] ==>
                r == Some(call(old(pool)[0])) && pool == old(pool)[1..] + [old(pool)[0]]
    {
      var a := Acquire();
      match a
      case Refused(err) =>
        return Some(onRefused(err));
      case WouldBlock =>
        return None;
      case Acquired(eng) =>
        var result := call(eng);
        var d := Release(Some(eng));
        r := Some(result);
    }
  }

  /** Builds a pool of `size` engines, each created by the factory
      (`newEngine(i)` is the i-th call's result) and initialized. Fails for
      size < 1. Any factory or Init failure closes what was created and returns
      no pool; `closed` lists the engines closed, in order. */
  method NewEnginePool(size: int, newEngine: nat -> Result<Engine, Error>, initResult: Engine -> Option<Error>)
    returns (r: Result<EnginePool, Error>, closed: seq<Engine>)
    ensures size < 1 ==> r == Failure(InvalidPoolSize) && closed == []
    ensures size >= 1 ==>
              var c := Construct(newEngine, initResult, size, []);
              && (c.Built? ==> r.Success? && fresh(r.value) && r.value.Valid() && !r.value.closed &&
                               r.value.size == size && r.value.pool == c.engines && closed == [])
              && (c.Aborted? ==> r == Failure(WrapCreationFailure(c.failure)) && closed == c.closed)
  {
    if size < 1 {
      return Failure(InvalidPoolSize), [];
    }
    var created: seq<Engine> := [];
    while |created| < size
      invariant |created| <= size
      invariant Construct(newEngine, initResult, size, created) == Construct(newEngine, initResult, size, [])
      decreases size - |created|
    {
      var made := newEngine(|created|);
      if made.Failure? {
        return Failure(FactoryFailed(made.error)), created;
      }
      var eng := made.value;
      var initErr := initResult(eng);
      if initErr.Some? {
        return Failure(InitFailed(initErr.value)), [eng] + created;
      }
      created := created + [eng];
    }
    var p := new EnginePool(size, created);
    r, closed := Success(p), [];
  }
}
