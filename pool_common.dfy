/** What the two engine pools share: the outcome of taking an engine from the
    idle queue, what happened to a released engine, and the loop that creates
    the initial engines. */
module PoolCommon {
  import opened Wrappers
  import opened ScriptEngine

  /** Taking an engine: got one, failed with an error, or the blocking channel
      receive would wait (the model does not wait). */
  datatype Acquisition = Acquired(engine: Engine) | Refused(err: Error) | WouldBlock

  /** What handing an item back to a pool did with it (an engine to an engine
      pool, an interpreter state to the Lua state pool): nothing for nil,
      stored it as idle, or closed it. */
  datatype Disposal = Ignored | Stored | Closed

  /** Why creating the initial engines stopped. */
  datatype CreationFailure = FactoryError(cause: Error) | InitError(cause: Error)

  /** The result of the creation loop: all engines, in creation order, or the
      failure and the engines closed while cleaning up, in the order Close was
      called on them. */
  datatype Construction = Built(engines: seq<Engine>) | Aborted(failure: CreationFailure, closed: seq<Engine>)

  /** The creation loop of both pool constructors. `newEngine(i)` is what the
      i-th factory call returns and `initResult(e)` what `e.Init` returns
      (the auto-growing pool passes an `initResult` that never fails, since it
      does not call Init). On a factory failure the engines created so far are
      closed; on an Init failure the failing engine is closed first, then those
      created before it. */
  function Construct(newEngine: nat -> Result<Engine, Error>, initResult: Engine -> Option<Error>,
                     size: nat, created: seq<Engine>): Construction
    decreases size - |created|
  {
    if |created| >= size then Built(created)
    else match newEngine(|created|)
      case Failure(e) => Aborted(FactoryError(e), created)
      case Success(eng) =>
        if initResult(eng).Some? then Aborted(InitError(initResult(eng).value), [eng] + created)
        else Construct(newEngine, initResult, size, created + [eng])
  }

  /** The i-th factory call produced an engine and its Init succeeded. */
  ghost predicate Healthy(newEngine: nat -> Result<Engine, Error>, initResult: Engine -> Option<Error>, i: nat)
  {
    newEngine(i).Success? && initResult(newEngine(i).value) == None
  }

  /** `es` are the engines of the first |es| factory calls, in call order. */
  ghost predicate ProducedInOrder(newEngine: nat -> Result<Engine, Error>, es: seq<Engine>)
  {
    forall j :: 0 <= j < |es| ==> newEngine(j) == Success(es[j])
  }

  /** Creation stopped at call `k`: every earlier call was healthy, and exactly
      the engines produced up to and including call `k` were closed. */
  ghost predicate AbortedAt(newEngine: nat -> Result<Engine, Error>, initResult: Engine -> Option<Error>,
                            k: nat, c: Construction)
  {
    && c.Aborted?
    && (forall j :: 0 <= j < k ==> Healthy(newEngine, initResult, j))
    && match newEngine(k)
       case Failure(e) =>
         c.failure == FactoryError(e) && |c.closed| == k && ProducedInOrder(newEngine, c.closed)
       case Success(eng) =>
         && initResult(eng).Some?
         && c.failure == InitError(initResult(eng).value)
         && |c.closed| == k + 1 && c.closed[0] == eng
         && ProducedInOrder(newEngine, c.closed[1..])
  }

  lemma {:induction false} ConstructFrom(newEngine: nat -> Result<Engine, Error>, initResult: Engine -> Option<Error>,
                                         size: nat, created: seq<Engine>)
    requires |created| <= size && ProducedInOrder(newEngine, created)
    requires forall j :: 0 <= j < |created| ==> Healthy(newEngine, initResult, j)
    ensures var c := Construct(newEngine, initResult, size, created);
            && (c.Built? ==> |c.engines| == size && ProducedInOrder(newEngine, c.engines) &&
                             forall j :: 0 <= j < size ==> Healthy(newEngine, initResult, j))
            && (c.Aborted? ==> exists k :: |created| <= k < size && AbortedAt(newEngine, initResult, k, c))
    decreases size - |created|
  {
    var c := Construct(newEngine, initResult, size, created);
    var n := |created|;
    if n < size {
      match newEngine(n)
      case Failure(e) =>
        assert AbortedAt(newEngine, initResult, n, c);
      case Success(eng) =>
        if initResult(eng).Some? {
          assert c.closed[1..] == created;
          assert AbortedAt(newEngine, initResult, n, c);
        } else {
          assert Healthy(newEngine, initResult, n);
          ConstructFrom(newEngine, initResult, size, created + [eng]);
        }
    }
  }

  /** Construction is all-or-nothing: either every one of the `size` factory
      calls produced an engine whose Init succeeded and all of them are kept,
      in creation order, or creation stopped at the first bad call and every
      engine produced up to that point was closed, none kept. */
  lemma ConstructAllOrNothing(newEngine: nat -> Result<Engine, Error>, initResult: Engine -> Option<Error>, size: nat)
    ensures var c := Construct(newEngine, initResult, size, []);
            && (c.Built? ==> |c.engines| == size && ProducedInOrder(newEngine, c.engines) &&
                             forall j :: 0 <= j < size ==> Healthy(newEngine, initResult, j))
            && (c.Aborted? ==> exists k :: 0 <= k < size && AbortedAt(newEngine, initResult, k, c))
  {
    ConstructFrom(newEngine, initResult, size, []);
  }
}
