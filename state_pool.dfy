/** The Lua state pool of lua/state_pool.go: a bounded LIFO stack of idle
    interpreter states (`saved`, at most `maxSaved`) and a `closed` flag set
    once by Shutdown. */
module LuaStatePool {
  import opened Wrappers
  import opened PoolCommon

  /** A non-nil `*LState`; nil is `None` where the source accepts it. */
  datatype LState = LState(id: nat)

  const DefaultMaxSaved: nat := 10

  class StatePool {
    var saved: seq<LState>
    const maxSaved: nat
    var closed: bool

    /** The stack never exceeds its limit, and a shut-down pool stores nothing. */
    ghost predicate Valid()
      reads this
    {
      |saved| <= maxSaved && (closed ==> saved == [])
    }

    constructor ()
      ensures Valid() && saved == [] && maxSaved == DefaultMaxSaved && !closed
    {
      saved := [];
      maxSaved := DefaultMaxSaved;
      closed := false;
    }

    /** Pops the most recently returned state; with an empty stack returns
        `created`, a freshly created state, whether or not the pool is shut
        down. */
    method Borrow(created: LState) returns (L: LState)
      requires Valid()
      modifies this
      ensures Valid() && closed == old(closed)
      ensures old(saved) != [] ==> L == old(saved)[|old(saved)| - 1] && saved == old(saved)[..|old(saved)| - 1]
      ensures old(saved) == [] ==> L == created && saved == []
    {
      var n := |saved|;
      if n > 0 {
        L := saved[n - 1];
        saved := saved[..n - 1];
        return;
      }
      L := created;
    }

    /** Hands a state back: nil is ignored; a shut-down pool closes it; an open
        pool stores it while below the limit and closes it otherwise. */
    method Return(L: Option<LState>) returns (d: Disposal)
      requires Valid()
      modifies this
      ensures Valid() && closed == old(closed)
      ensures L.None? ==> d == Ignored && saved == old(saved)
      ensures L.Some? && old(closed) ==> d == Closed && saved == old(saved)
      ensures L.Some? && !old(closed) && |old(saved)| < maxSaved ==> d == Stored && saved == old(saved) + [L.value]
      ensures L.Some? && !old(closed) && |old(saved)| >= maxSaved ==> d == Closed && saved == old(saved)
    {
      if L.None? {
        return Ignored;
      }
      if closed {
        return Closed;
      }
      if |saved| < maxSaved {
        saved := saved + [L.value];
        return Stored;
      }
      d := Closed;
    }

    /** The first call shuts the pool, empties the stack and closes every state
        that was stored, bottom to top; later calls do nothing. */
    method Shutdown() returns (closedStates: seq<LState>)
      requires Valid()
      modifies this
      ensures Valid() && closed && saved == []
      ensures old(closed) ==> closedStates == []
      ensures !old(closed) ==> closedStates == old(saved)
    {
      if closed {
        return [];
      }
      closed := true;
      var toClose := saved;
      saved := [];
      // The source's close loop: Close is called on each saved state in
      // stack order and returns nothing, so the loop's whole effect is the
      // list of states it closed.
      closedStates := [];
      for i := 0 to |toClose|
        invariant closedStates == toClose[..i]
      {
        closedStates := closedStates + [toClose[i]];
      }
    }
  }

  /** LIFO round trip: on an open pool with room, Return(L) then Borrow()
      yields L and leaves the stack as it was. */
  method ReturnBorrowScenario(pool: StatePool, L: LState, other: LState) returns (d: Disposal, back: LState)
    requires pool.Valid() && !pool.closed && |pool.saved| < pool.maxSaved
    modifies pool
    ensures d == Stored && back == L && pool.saved == old(pool.saved)
  {
    d := pool.Return(Some(L));
    back := pool.Borrow(other);
  }
}
