/** The factory registry of factory.go: engine type -> constructor. The Go
    source keeps it in one package-level map; here it is an explicit object
    whose `factories` field the operations update in place. */
module Factory {
  import opened Wrappers
  import opened ScriptEngine

  /** A registered constructor (`FactoryFunc`), known only by identity. What
      calling it returns is supplied to `NewScriptEngine` as `invoke`. */
  datatype FactoryFunc = FactoryFunc(id: nat)

  class Registry {
    var factories: map<EngineType, FactoryFunc>

    constructor ()
      ensures factories == map[]
    {
      factories := map[];
    }

    /** Binds `typ` to `f` unless `typ` is already bound; a failed call leaves
        the existing binding untouched. */
    method Register(typ: EngineType, f: FactoryFunc) returns (err: Option<Error>)
      modifies this
      ensures err.Some? <==> typ in old(factories)
      ensures err.Some? ==> err == Some(FactoryAlreadyRegistered(typ)) && factories == old(factories)
      ensures err.None? ==> factories == old(factories)[typ := f]
    {
      if typ in factories {
        return Some(FactoryAlreadyRegistered(typ));
      }
      factories := factories[typ := f];
      err := None;
    }

    /** The constructor bound to `typ`, with found = `Some?`. */
    method GetFactory(typ: EngineType) returns (f: Option<FactoryFunc>)
      ensures f.Some? <==> typ in factories
      ensures f.Some? ==> f.value == factories[typ]
    {
      f := if typ in factories then Some(factories[typ]) else None;
    }

    /** Every bound type exactly once, in no promised order. */
    method ListFactories() returns (res: seq<EngineType>)
      ensures |res| == |factories|
      ensures forall t :: t in res <==> t in factories
      ensures forall i, j :: 0 <= i < j < |res| ==> res[i] != res[j]
    {
      res := EnumerateKeys(factories);
    }

    /** Removes `typ`, reporting whether it was bound; other bindings stay. */
    method Unregister(typ: EngineType) returns (removed: bool)
      modifies this
      ensures removed <==> typ in old(factories)
      ensures factories == old(factories) - {typ}
      ensures !removed ==> factories == old(factories)
    {
      if typ in factories {
        factories := factories - {typ};
        return true;
      }
      removed := false;
    }

    /** Creates an engine with the constructor bound to `typ`: "not registered"
        when unbound, otherwise exactly what the constructor returns
        (`invoke(f)` is the outcome of calling `f()`). */
    method NewScriptEngine(typ: EngineType, invoke: FactoryFunc -> Result<Engine, Error>)
      returns (r: Result<Engine, Error>)
      ensures typ !in factories ==> r == Failure(FactoryNotRegistered(typ))
      ensures typ in factories ==> r == invoke(factories[typ])
    {
      var f := GetFactory(typ);
      if f.None? {
        return Failure(FactoryNotRegistered(typ));
      }
      r := invoke(f.value);
    }
  }

  /** Register twice fails the second time; after Unregister the same type can
      be registered again, and lookups see the newest constructor. */
  method ReregisterScenario(typ: EngineType, f: FactoryFunc, g: FactoryFunc)
    returns (first: Option<Error>, second: Option<Error>, removed: bool,
             third: Option<Error>, found: Option<FactoryFunc>)
    ensures first == None
    ensures second == Some(FactoryAlreadyRegistered(typ))
    ensures removed
    ensures third == None && found == Some(g)
  {
    var reg := new Registry();
    first := reg.Register(typ, f);
    second := reg.Register(typ, g);
    var kept := reg.GetFactory(typ);
    assert kept == Some(f);
    removed := reg.Unregister(typ);
    third := reg.Register(typ, g);
    found := reg.GetFactory(typ);
  }
}
