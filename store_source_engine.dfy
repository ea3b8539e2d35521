/** RtStoreSourceEngine: the owner of store sources. It must be constructed
    with a store container, and it binds each store it initializes to one of
    its sources. */
module StoreSourceEngine {
  import opened Wrappers
  import opened RtErrors
  import opened JsValues
  import opened InjectableStore

  class RtStoreSourceEngine {
    var initialized: bool
    var constructedCorrectly: bool

    /** The constructor body past its `instanceof` check. */
    constructor(container: Kind)
      requires container == StoreContainer
      ensures constructedCorrectly && !initialized
    {
      initialized := false;
      constructedCorrectly := true;
    }

    /** `new Engine(container)`: a thrown error is a `Failure`, and then no
        engine exists. */
    static method Construct(container: Kind) returns (r: Result<RtStoreSourceEngine, RtError>)
      ensures r.Failure? <==> container != StoreContainer
      ensures r.Failure? ==> r.error == EngineWithoutContainer
      ensures r.Success? ==> fresh(r.value) && r.value.constructedCorrectly && !r.value.initialized
    {
      if container == StoreContainer {
        var engine := new RtStoreSourceEngine(container);
        r := Success(engine);
      } else {
        r := Failure(EngineWithoutContainer);
      }
    }

    /** `initialize(caller, {store, source})`: one bind of the store, with the
        arguments passed through; the engine counts as initialized only when
        that bind did not throw, and never stops being so. */
    method Initialize(caller: Kind, store: RtInjectableStore, source: StateSource) returns (r: Outcome<RtError>)
      requires store.Valid()
      modifies this`initialized, store
      ensures store.Valid()
      ensures r == BindOutcome(old(store.stateSource) != null, caller)
      ensures r.Fail? ==> unchanged(store) && initialized == old(initialized)
      ensures r.Pass? ==> store.stateSource == source && store.frozen && initialized
    {
      r := store.Initialize(source, caller);
      if r.Pass? {
        initialized := true;
      }
    }
  }

  /** Two engines, each built with a container, binding the same store: the
      first binds it, the second is refused with "State source already bound."
      and stays uninitialized. */
  method OnlyOneInitialization() returns (first: Outcome<RtError>, second: Outcome<RtError>, secondInitialized: bool)
    ensures first == Pass
    ensures second == Fail(StateSourceAlreadyBound)
    ensures !secondInitialized
  {
    var store := new RtInjectableStore();
    var engineA := new RtStoreSourceEngine(StoreContainer);
    var sourceA := new StateSource(Null);
    first := engineA.Initialize(StoreSourceEngine, store, sourceA);
    var engineB := new RtStoreSourceEngine(StoreContainer);
    var sourceB := new StateSource(Null);
    second := engineB.Initialize(StoreSourceEngine, store, sourceB);
    secondInitialized := engineB.initialized;
  }
}
