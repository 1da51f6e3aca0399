/** The auto-growing engine pool of engine_pool_autogrow.go: an idle FIFO of
    capacity `max` plus `total`, the count of engines the pool considers
    created, which grows on demand up to `max`. */
module AutoGrow {
  import opened Wrappers
  import opened ScriptEngine
  import opened PoolCommon

  /** The auto-growing pool does not call Init on the engines it creates. */
  function NoInit(e: Engine): Option<Error> { None }

  class AutoGrowEnginePool {
    var pool: seq<Engine>
    const typ: EngineType
    var total: int
    const max: nat
    var closed: bool

    /** 0 <= total <= max, the idle queue within its capacity, and a closed
        pool has no idle engine. */
    ghost predicate Valid()
      reads this
    {
      max >= 1 && typ != "" && 0 <= total <= max && |pool| <= max && (closed ==> pool == [])
    }

    constructor (typ: EngineType, max: nat, engines: seq<Engine>)
      requires max >= 1 && typ != "" && |engines| <= max
      ensures Valid() && this.typ == typ && this.max == max
      ensures pool == engines && total == |engines| && !closed
    {
      this.typ := typ;
      this.max := max;
      pool := engines;
      total := |engines|;
      closed := false;
    }

    /** Prefers an idle engine; otherwise creates one (counting it first and
        taking the count back if the factory fails) while total < max;
        otherwise would block on the queue. `made` is what the factory call
        would return. */
    method Acquire(made: Result<Engine, Error>) returns (r: Acquisition)
      requires Valid()
      modifies this
      ensures Valid() && closed == old(closed)
      ensures old(closed) ==> r == Refused(GrowPoolClosed) && pool == old(pool) && total == old(total)
      ensures !old(closed) && old(pool) != [] ==>
                r == Acquired(old(pool)[0]) && pool == old(pool)[1..] && total == old(total)
      ensures !old(closed) && old(pool) == [] && old(total) < max ==>
                pool == [] &&
                match made
                case Failure(e) => r == Refused(e) && total == old(total)
                case Success(eng) => r == Acquired(eng) && total == old(total) + 1
      ensures !old(closed) && old(pool) == [] && old(total) == max ==>
                r == WouldBlock && pool == [] && total == old(total)
    {
      if closed {
        return Refused(GrowPoolClosed);
      }
      if pool != [] {
        r := Acquired(pool[0]);
        pool := pool[1..];
        return;
      }
      if total < max {
        total := total + 1;
        if made.Failure? {
          total := total - 1;
          return Refused(made.error);
        }
        return Acquired(made.value);
      }
      r := WouldBlock;
    }

    /** Hands an engine back. Nil is ignored. On a closed pool the engine is
        closed and total is left alone; on an open pool it is enqueued if there
        is room, otherwise closed and total decremented, never below 0. */
    method Release(e: Option<Engine>) returns (d: Disposal)
      requires Valid()
      modifies this
      ensures Valid() && closed == old(closed)
      ensures e.None? ==> d == Ignored && pool == old(pool) && total == old(total)
      ensures e.Some? && old(closed) ==> d == Closed && pool == old(pool) && total == old(total)
      ensures e.Some? && !old(closed) && |old(pool)| < max ==>
                d == Stored && pool == old(pool) + [e.value] && total == old(total)
      ensures e.Some? && !old(closed) && |old(pool)| == max ==>
                d == Closed && pool == old(pool) &&
                total == (if old(total) > 0 then old(total) - 1 else 0)
    {
      if e.None? {
        return Ignored;
      }
      if closed {
        return Closed;
      }
      if |pool| < max {
        pool := pool + [e.value];
        d := Stored;
      } else {
        if total > 0 {
          total := total - 1;
        }
        d := Closed;
      }
    }

    /** The first call marks the pool closed, closes every idle engine in queue
        order and returns the last Close error; later calls do nothing. */
    method Close(closeResult: Engine -> Option<Error>) returns (err: Option<Error>, drained: seq<Engine>)
      requires Valid()
      modifies this
      ensures Valid() && closed && pool == [] && total == old(total)
      ensures old(closed) ==> err == None && drained == []
      ensures !old(closed) ==> drained == old(pool) && err == LastError(drained, closeResult)
    {
      if closed {
        return None, [];
      }
      closed := true;
      err, drained := None, [];
      while pool != []
        invariant closed && total == old(total) && drained + pool == old(pool)
        invariant err == LastError(drained, closeResult)
        decreases |pool|
      {
        var eng := pool[0];
        pool := pool[1..];
        var r := closeResult(eng);
        if r.Some? {
          err := r;
        }
        assert (drained + [eng])[..|drained|] == drained;
        drained := drained + [eng];
      }
    }

    /** The acquire -> call -> release wrappers: `call(e)` is what the engine's
        operation returns, `onRefused` turns an Acquire error into the
        wrapper's result, and `None` means the Acquire would block. An engine
        created on demand ends up idle in the queue. */
    method Delegate<T>(made: Result<Engine, Error>, call: Engine -> T, onRefused: Error -> T) returns (r: Option<T>)
      requires Valid()
      modifies this
      ensures Valid() && closed == old(closed)
      ensures old(closed) ==> r == Some(onRefused(GrowPoolClosed)) && pool == old(pool) && total == old(total)
      ensures !old(closed) && old(pool) != [] ==>
                r == Some(call(old(pool)[0])) && pool == old(pool)[1..] + [old(pool)[0]] && total == old(total)
      ensures !old(closed) && old(pool) == [] && old(total) < max ==>
                match made
                case Failure(e) => r == Some(onRefused(e)) && pool == [] && total == old(total)
                case Success(eng) => r == Some(call(eng)) && pool == [eng] && total == old(total) + 1
      ensures !old(closed) && old(pool) == [] && old(total) == max ==> r == None && pool == [] && total == old(total)
    {
      var a := Acquire(made);
      match a
      case Refused(err) =>
        return Some(onRefused(err));
      case WouldBlock =>
        return None;
      case Acquired(eng) =>
        var result := call(eng);
        var d := Release(Some(eng));
        r := Some(result);
    }
  }

  /** Validates the sizes and the type, then creates `initialSize` engines
      (`newEngine(i)` is the i-th factory call's result) without calling Init.
      A factory failure drains and closes what was created and returns no
      pool; `closed` lists the engines closed, in order. */
  method NewAutoGrowEnginePool(initialSize: int, maxSize: int, typ: EngineType, newEngine: nat -> Result<Engine, Error>)
    returns (r: Result<AutoGrowEnginePool, Error>, closed: seq<Engine>)
    ensures maxSize < 1 || initialSize < 0 || initialSize > maxSize ==>
              r == Failure(InvalidSizes(initialSize, maxSize)) && closed == []
    ensures 1 <= maxSize && 0 <= initialSize <= maxSize && typ == "" ==> r == Failure(EmptyEngineType) && closed == []
    ensures 1 <= maxSize && 0 <= initialSize <= maxSize && typ != "" ==>
              var c := Construct(newEngine, NoInit, initialSize, []);
              && (c.Built? ==> r.Success? && fresh(r.value) && r.value.Valid() && !r.value.closed &&
                               r.value.typ == typ && r.value.max == maxSize &&
                               r.value.pool == c.engines && r.value.total == initialSize && closed == [])
              && (c.Aborted? ==> r == Failure(GrowFactoryFailed(c.failure.cause)) && closed == c.closed)
  {
    if maxSize < 1 || initialSize < 0 || initialSize > maxSize {
      return Failure(InvalidSizes(initialSize, maxSize)), [];
    }
    if typ == "" {
      return Failure(EmptyEngineType), [];
    }
    var created: seq<Engine> := [];
    while |created| < initialSize
      invariant |created| <= initialSize
      invariant Construct(newEngine, NoInit, initialSize, created) == Construct(newEngine, NoInit, initialSize, [])
      decreases initialSize - |created|
    {
      var made := newEngine(|created|);
      if made.Failure? {
        // Drain: receive and close every engine queued so far. Close results
        // are discarded, so the loop's whole effect is the list of engines it
        // closed, in queue order.
        var queue, drained := created, [];
        while queue != []
          invariant drained + queue == created
          decreases |queue|
        {
          drained := drained + [queue[0]];
          queue := queue[1..];
        }
        return Failure(GrowFactoryFailed(made.error)), drained;
      }
      created := created + [made.value];
    }
    var p := new AutoGrowEnginePool(typ, maxSize, created);
    r, closed := Success(p), [];
  }

  /** With one engine created up front and a cap of three, five acquirers in a
      row get the idle engine, then two engines created on demand, and the
      fourth and fifth would wait: no more than three engines exist. */
  method GrowToCapScenario(newEngine: nat -> Result<Engine, Error>, a: Engine, b: Engine)
    returns (first: Acquisition, second: Acquisition, third: Acquisition, fourth: Acquisition, fifth: Acquisition)
    requires newEngine(0).Success?
    ensures first == Acquired(newEngine(0).value)
    ensures second == Acquired(a) && third == Acquired(b)
    ensures fourth == WouldBlock && fifth == WouldBlock
  {
    var r, closed := NewAutoGrowEnginePool(1, 3, JavaScriptType, newEngine);
    assert Construct(newEngine, NoInit, 1, [newEngine(0).value]) == Built([newEngine(0).value]);
    var p := r.value;
    first := p.Acquire(Success(a));
    second := p.Acquire(Success(a));
    third := p.Acquire(Success(b));
    fourth := p.Acquire(Success(a));
    fifth := p.Acquire(Success(b));
    assert p.total == 3;
  }
}
