/** The named engine registry of manager.go: name -> engine, plus an optional
    default name. Init and Close calls on the engines are external; their
    outcomes are given as `initResult` / `closeResult`, and the batch
    operations report which engines they called, in call order. */
module ManagerRegistry {
  import opened Wrappers
  import opened ScriptEngine

  class Manager {
    var engines: map<string, Engine>
    var defaultName: string

    constructor ()
      ensures engines == map[] && defaultName == ""
    {
      engines := map[];
      defaultName := "";
    }

    /** Adds `name -> eng`; fails on an empty name, a nil engine, or a name in
        use, and then changes nothing. */
    method Register(name: string, eng: Option<Engine>) returns (err: Option<Error>)
      modifies this
      ensures name == "" || eng.None? ==> err == Some(InvalidNameOrEngine)
      ensures name != "" && eng.Some? && name in old(engines) ==> err == Some(EngineAlreadyRegistered)
      ensures err.None? <==> name != "" && eng.Some? && name !in old(engines)
      ensures err.None? ==> engines == old(engines)[name := eng.value]
      ensures err.Some? ==> engines == old(engines)
      ensures defaultName == old(defaultName)
    {
      if name == "" || eng.None? {
        return Some(InvalidNameOrEngine);
      }
      if name in engines {
        return Some(EngineAlreadyRegistered);
      }
      engines := engines[name := eng.value];
      err := None;
    }

    /** The engine registered under `name`, with found = `Some?`. */
    method Get(name: string) returns (e: Option<Engine>)
      ensures e.Some? <==> name in engines
      ensures e.Some? ==> e.value == engines[name]
    {
      e := if name in engines then Some(engines[name]) else None;
    }

    /** Calls Init on a snapshot of the registered engines (in map order,
        `names`), stopping at and returning the first error. The registry is
        not changed. `initialized` lists the engines Init was called on. */
    method InitAll(initResult: Engine -> Option<Error>)
      returns (err: Option<Error>, names: seq<string>, initialized: seq<Engine>)
      ensures |names| == |engines| && (forall n :: n in names <==> n in engines)
      ensures forall i, j :: 0 <= i < j < |names| ==> names[i] != names[j]
      ensures |initialized| <= |names|
      ensures forall i :: 0 <= i < |initialized| ==> initialized[i] == engines[names[i]]
      ensures forall i :: 0 <= i < |initialized| - 1 ==> initResult(initialized[i]) == None
      ensures err.None? ==> |initialized| == |names| &&
                            forall i :: 0 <= i < |initialized| ==> initResult(initialized[i]) == None
      ensures err.Some? ==> |initialized| > 0 && initResult(initialized[|initialized| - 1]) == err
    {
      var snapshot := engines;
      names := EnumerateKeys(snapshot);
      var list := seq(|names|, i requires 0 <= i < |names| => snapshot[names[i]]);
      initialized := [];
      var i := 0;
      while i < |list|
        invariant 0 <= i <= |list|
        invariant initialized == list[..i]
        invariant forall j :: 0 <= j < i ==> initResult(list[j]) == None
      {
        initialized := initialized + [list[i]];
        var r := initResult(list[i]);
        if r.Some? {
          return r, names, initialized;
        }
        i := i + 1;
      }
      err := None;
    }

    /** Empties the registry first, then calls Close once on every engine that
        was registered, returning the last Close error. */
    method CloseAll(closeResult: Engine -> Option<Error>)
      returns (err: Option<Error>, names: seq<string>, closed: seq<Engine>)
      modifies this
      ensures engines == map[] && defaultName == old(defaultName)
      ensures |names| == |old(engines)| && (forall n :: n in names <==> n in old(engines))
      ensures forall i, j :: 0 <= i < j < |names| ==> names[i] != names[j]
      ensures |closed| == |names| && forall i :: 0 <= i < |closed| ==> closed[i] == old(engines)[names[i]]
      ensures err == LastError(closed, closeResult)
      ensures old(engines) == map[] ==> closed == [] && err == None
    {
      var snapshot := engines;
      names := EnumerateKeys(snapshot);
      var list := seq(|names|, i requires 0 <= i < |names| => snapshot[names[i]]);
      engines := map[];
      err := None;
      var i := 0;
      while i < |list|
        invariant 0 <= i <= |list|
        invariant err == LastError(list[..i], closeResult)
      {
        var r := closeResult(list[i]);
        if r.Some? {
          err := r;
        }
        assert list[..i + 1][..i] == list[..i];
        i := i + 1;
      }
      assert list[..|list|] == list;
      closed := list;
    }

    /** Deregisters `name` only; Close is called iff the name was present and
        `closeIfExists` holds (its error is discarded). */
    method Remove(name: string, closeIfExists: bool) returns (closed: Option<Engine>)
      modifies this
      ensures engines == old(engines) - {name} && defaultName == old(defaultName)
      ensures closed.Some? <==> name in old(engines) && closeIfExists
      ensures closed.Some? ==> closed.value == old(engines)[name]
    {
      var e := if name in engines then Some(engines[name]) else None;
      engines := engines - {name};
      closed := if e.Some? && closeIfExists then e else None;
    }

    /** Records `name` as the default without checking that it is registered. */
    method SetDefault(name: string)
      modifies this
      ensures defaultName == name && engines == old(engines)
    {
      defaultName := name;
    }

    /** `Get(defaultName)`; not found when the default name is unset or unknown. */
    method GetDefault() returns (e: Option<Engine>)
      ensures e.Some? <==> defaultName in engines
      ensures e.Some? ==> e.value == engines[defaultName]
    {
      e := Get(defaultName);
    }
  }

  /** Registration is visible to Get, a second CloseAll closes nothing, and a
      default naming an unregistered engine is reported as not found. */
  method CloseAllTwiceScenario(a: Engine, b: Engine, closeResult: Engine -> Option<Error>)
    returns (got: Option<Engine>, firstClosed: seq<Engine>, secondErr: Option<Error>,
             secondClosed: seq<Engine>, dangling: Option<Engine>)
    ensures got == Some(a)
    ensures multiset(firstClosed) == multiset{a, b}
    ensures secondErr == None && secondClosed == []
    ensures dangling == None
  {
    var m := new Manager();
    var e1 := m.Register("a", Some(a));
    var e2 := m.Register("b", Some(b));
    assert m.engines == map["a" := a, "b" := b];
    got := m.Get("a");
    var err1, names1;
    err1, names1, firstClosed := m.CloseAll(closeResult);
    assert "a" in names1 && "b" in names1 && |names1| == 2;
    if names1[0] == "a" {
      assert names1 == ["a", "b"] && firstClosed == [a, b];
    } else {
      assert names1 == ["b", "a"] && firstClosed == [b, a];
    }
    var names2;
    secondErr, names2, secondClosed := m.CloseAll(closeResult);
    m.SetDefault("a");
    dangling := m.GetDefault();
  }
}
