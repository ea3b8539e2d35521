/** RtInjectableStore: a store whose state stream is bound, once, to a state
    source owned by an RtStoreSourceEngine, after which the store is frozen. */
module InjectableStore {
  import opened Wrappers
  import opened JsValues
  import opened RtErrors

  /** The RtBehaviorSubject an engine owns: a cell holding the latest value,
      which every subscriber of the store's `state$` sees (it is replayed on
      subscription and pushed on every `next`). */
  class StateSource {
    var latest: Value

    constructor(initial: Value)
      ensures latest == initial
    {
      latest := initial;
    }

    method Next(v: Value)
      modifies this
      ensures latest == v
    {
      latest := v;
    }
  }

  /** What `initialize` does with a store that is (or is not) already bound
      and a caller of the given kind: the bound check comes first, so a bound
      store reports "already bound" to any caller, and only an engine may bind
      an unbound store. */
  function BindOutcome(alreadyBound: bool, caller: Kind): (r: Outcome<RtError>)
    ensures r.Pass? <==> !alreadyBound && caller == StoreSourceEngine
    ensures alreadyBound ==> r == Fail(StateSourceAlreadyBound)
    ensures !alreadyBound && caller != StoreSourceEngine ==> r == Fail(StoreNotInitializedByEngine)
  {
    if alreadyBound then Fail(StateSourceAlreadyBound)
    else if caller == StoreSourceEngine then Pass
    else Fail(StoreNotInitializedByEngine)
  }

  class RtInjectableStore {
    var stateSource: StateSource?
    var initializedByAnRtStoreSourceEngine: bool
    /** Set by `Object.freeze(this)`. */
    var frozen: bool

    /** A store is bound exactly when an engine initialized it, and it is
        frozen from then on. */
    ghost predicate Valid()
      reads this
    {
      && (stateSource != null <==> initializedByAnRtStoreSourceEngine)
      && (stateSource != null <==> frozen)
    }

    constructor()
      ensures Valid()
      ensures stateSource == null && !initializedByAnRtStoreSourceEngine && !frozen
    {
      stateSource := null;
      initializedByAnRtStoreSourceEngine := false;
      frozen := false;
    }

    /** `initialize(stateSource, caller)`; a thrown error is the `Fail` outcome. */
    method Initialize(source: StateSource, caller: Kind) returns (r: Outcome<RtError>)
      requires Valid()
      modifies this
      ensures Valid()
      ensures r == BindOutcome(old(stateSource) != null, caller)
      ensures old(frozen) ==> r == Fail(StateSourceAlreadyBound)
      ensures r.Fail? ==> unchanged(this)
      ensures r.Pass? ==> stateSource == source && initializedByAnRtStoreSourceEngine && frozen
    {
      if stateSource != null {
        return Fail(StateSourceAlreadyBound);
      }
      if caller == StoreSourceEngine {
        initializedByAnRtStoreSourceEngine := true;
      } else {
        return Fail(StoreNotInitializedByEngine);
      }
      stateSource := source;
      frozen := true;
      r := Pass;
    }

    /** The value a subscriber of `state$` currently receives: none while the
        store is unbound (`state$` is still undefined), otherwise the bound
        source's latest value. */
    function ObservedState(): (v: Option<Value>)
      reads this, stateSource
      ensures v.Some? <==> stateSource != null
      ensures v.Some? ==> v.value == stateSource.latest
    {
      if stateSource == null then None else Some(stateSource.latest)
    }
  }

  /** A store bound to a fresh source sees the source's initial `null`, then
      every value pushed afterwards. */
  method ReceivesStateChanges() returns (before: Option<Value>, after: Option<Value>)
    ensures before == Some(Null)
    ensures after == Some(Obj(map["prop" := Str("test")]))
  {
    var store := new RtInjectableStore();
    var source := new StateSource(Null);
    var r := store.Initialize(source, StoreSourceEngine);
    before := store.ObservedState();
    source.Next(Obj(map["prop" := Str("test")]));
    after := store.ObservedState();
  }
}
