/** RtComponentThatCanPluckFromStores: a component whose decorated properties
    are kept in sync with (a slice of) the state of the stores they name.
    Stream delivery is modelled synchronously: subscribing replays the store's
    current state, and every later emission is one call of `Sync`. */
module PluckComponent {
  import opened Wrappers
  import opened JsValues
  import opened AutoUnsubscribe
  import opened InjectableStore
  import opened PluckFromStore

  /** The `map` step of a pluck pipeline: with a truthy traversal key, the
      key's value in `state || {}`; otherwise the whole state. */
  function Slice(state: Value, traversalKey: Option<string>): (v: Value)
    ensures (traversalKey.None? || traversalKey.value == "") ==> v == state
    ensures traversalKey.Some? && traversalKey.value != "" && state.Obj? && traversalKey.value in state.fields ==>
      v == state.fields[traversalKey.value]
    ensures traversalKey.Some? && traversalKey.value != "" && !(state.Obj? && traversalKey.value in state.fields) ==>
      v == Undefined
  {
    if traversalKey.Some? && traversalKey.value != "" then Member(Or(state, Obj(map[])), traversalKey.value)
    else state
  }

  /** One instance entry: a recorded property with the store `inject`
      resolved for it (null when the store is not provided). */
  datatype PluckEntry = PluckEntry(store: RtInjectableStore?, meta: PluckMetadata)

  /** The entries for the recorded properties, in order, each with its
      resolved store. */
  function WithStores(props: seq<PluckMetadata>, inject: StoreType -> RtInjectableStore?): (es: seq<PluckEntry>)
    ensures |es| == |props|
    ensures forall i :: 0 <= i < |props| ==> es[i] == PluckEntry(inject(props[i].storeType), props[i])
  {
    seq(|props|, i requires 0 <= i < |props| => PluckEntry(inject(props[i].storeType), props[i]))
  }

  /** What a store offers when `ngOnInit` reaches its entry. */
  datatype StoreView =
    | NotProvided
    | Unbound
    | Bound(source: StateSource, state: Value)

  function ViewOf(store: RtInjectableStore?): (v: StoreView)
    reads store
    reads if store != null then {store.stateSource} else {}
    ensures v.NotProvided? <==> store == null
    ensures v.Unbound? <==> store != null && store.stateSource == null
    ensures v.Bound? ==> store != null && v.source == store.stateSource && v.state == store.stateSource.latest
  {
    if store == null then NotProvided
    else if store.stateSource == null then Unbound
    else Bound(store.stateSource, store.stateSource.latest)
  }

  datatype PluckInput = PluckInput(meta: PluckMetadata, view: StoreView)

  function Inputs(entries: seq<PluckEntry>): (ins: seq<PluckInput>)
    reads set e | e in entries :: e.store
    reads set e | e in entries && e.store != null :: e.store.stateSource
    ensures |ins| == |entries|
    ensures forall i :: 0 <= i < |entries| ==> ins[i] == PluckInput(entries[i].meta, ViewOf(entries[i].store))
  {
    if entries == [] then []
    else [PluckInput(entries[0].meta, ViewOf(entries[0].store))] + Inputs(entries[1..])
  }

  /** The component's `log.debug` calls that the model keeps. Each records a
      call only: whether it prints anything is up to the logger's gate
      (`RtLog.Passes`), and with no config or a level above Debug nothing is. */
  datatype DebugNote =
    | NoDecoratedProperties
    | StoreNotProvided(storeName: string)
    | PipelineFailed(propertyKey: string, error: Value)

  /** A live pluck pipeline: which property it feeds, how it slices, which
      source it follows and the subscription it was registered under. */
  datatype Pipeline = Pipeline(propertyKey: string, traversalKey: Option<string>, source: StateSource, subscription: nat)

  /** The TypeErrors that escape `ngOnInit`: `store.state$.pipe` on a store
      no engine bound, whose `state$` is undefined; or `forEach` on the entry
      list a completed `ngOnInit` already deleted. */
  datatype PluckError =
    | StateStreamUndefined(propertyKey: string)
    | EntriesDeleted

  /** The part of the component `ngOnInit` changes. */
  datatype InitState = InitState(
    properties: map<string, Value>,
    pipelines: seq<Pipeline>,
    notes: seq<DebugNote>,
    nextSubscription: nat)

  /** Where `ngOnInit`'s loop ends: the state reached, and the error that
      stopped it, if any. */
  datatype InitRun = InitRun(state: InitState, error: Option<PluckError>)

  /** One pass of the loop body: it throws exactly on an unbound store;
      otherwise it only appends, adding a pipeline under the next
      subscription id for a bound store, and leaves every other property as
      it was. */
  function Step(s: InitState, input: PluckInput): (r: Result<InitState, PluckError>)
    ensures r.Failure? <==> input.view.Unbound?
    ensures r.Failure? ==> r.error == StateStreamUndefined(input.meta.propertyKey)
    ensures r.Success? ==>
      && |r.value.pipelines| == |s.pipelines| + (if input.view.Bound? then 1 else 0)
      && r.value.pipelines[..|s.pipelines|] == s.pipelines
      && r.value.nextSubscription == s.nextSubscription + (if input.view.Bound? then 1 else 0)
      && |r.value.notes| == |s.notes| + (if input.view.NotProvided? then 1 else 0)
      && r.value.notes[..|s.notes|] == s.notes
    ensures r.Success? && input.view.Bound? ==>
      r.value.pipelines[|s.pipelines|].subscription == s.nextSubscription
      && r.value.pipelines[|s.pipelines|].source == input.view.source
    ensures r.Success? ==> forall k | k in s.properties && k != input.meta.propertyKey ::
      k in r.value.properties && r.value.properties[k] == s.properties[k]
  {
    match input.view
    case NotProvided => Success(s.(notes := s.notes + [StoreNotProvided(input.meta.storeType.name)]))
    case Unbound => Failure(StateStreamUndefined(input.meta.propertyKey))
    case Bound(source, state) =>
      Success(s.(properties := s.properties[input.meta.propertyKey := Slice(state, input.meta.traversalKey)],
                 pipelines := s.pipelines + [Pipeline(input.meta.propertyKey, input.meta.traversalKey, source, s.nextSubscription)],
                 nextSubscription := s.nextSubscription + 1))
  }

  /** The whole loop, entry after entry, stopping at the first throw. Even
      a run that throws keeps the pipelines it had, and the pipelines it
      adds carry consecutive subscription ids from the counter on. */
  function InitFold(s: InitState, ins: seq<PluckInput>): (run: InitRun)
    ensures |s.pipelines| <= |run.state.pipelines|
    ensures run.state.pipelines[..|s.pipelines|] == s.pipelines
    ensures run.state.nextSubscription == s.nextSubscription + (|run.state.pipelines| - |s.pipelines|)
    ensures forall j :: |s.pipelines| <= j < |run.state.pipelines| ==>
      run.state.pipelines[j].subscription == s.nextSubscription + (j - |s.pipelines|)
    decreases |ins|
  {
    if ins == [] then InitRun(s, None)
    else match Step(s, ins[0])
      case Failure(e) => InitRun(s, Some(e))
      case Success(s') => InitFold(s', ins[1..])
  }

  /** `ngOnInit` throws exactly when some entry's store is provided but
      unbound, and the error names the first such entry. */
  lemma {:induction false} InitFailsIffUnboundStore(s: InitState, ins: seq<PluckInput>)
    ensures InitFold(s, ins).error.Some? <==> exists i :: 0 <= i < |ins| && ins[i].view.Unbound?
    ensures InitFold(s, ins).error.Some? ==>
      exists i :: 0 <= i < |ins| && ins[i].view.Unbound?
        && (forall j :: 0 <= j < i ==> !ins[j].view.Unbound?)
        && InitFold(s, ins).error.value == StateStreamUndefined(ins[i].meta.propertyKey)
    decreases |ins|
  {
    if ins != [] {
      match Step(s, ins[0])
      case Failure(e) =>
      case Success(s') =>
        InitFailsIffUnboundStore(s', ins[1..]);
        if InitFold(s, ins).error.Some? {
          var k :| 0 <= k < |ins[1..]| && ins[1..][k].view.Unbound?
            && (forall j :: 0 <= j < k ==> !ins[1..][j].view.Unbound?)
            && InitFold(s', ins[1..]).error.value == StateStreamUndefined(ins[1..][k].meta.propertyKey);
          assert ins[k + 1] == ins[1..][k];
        } else {
          forall i | 0 <= i < |ins|
            ensures !ins[i].view.Unbound?
          {
            if i > 0 {
              assert ins[i] == ins[1..][i - 1];
            }
          }
        }
    }
  }

  /** The number of entries whose store is bound. */
  function CountBound(ins: seq<PluckInput>): nat
  {
    if ins == [] then 0 else (if ins[0].view.Bound? then 1 else 0) + CountBound(ins[1..])
  }

  /** The number of entries whose store is not provided. */
  function CountNotProvided(ins: seq<PluckInput>): nat
  {
    if ins == [] then 0 else (if ins[0].view.NotProvided? then 1 else 0) + CountNotProvided(ins[1..])
  }

  /** A complete run opens one pipeline, under a new subscription, per bound
      store, and writes one debug line per store that is not provided. */
  lemma {:induction false} InitSubscribesEachBoundStore(s: InitState, ins: seq<PluckInput>)
    requires InitFold(s, ins).error.None?
    ensures |InitFold(s, ins).state.pipelines| == |s.pipelines| + CountBound(ins)
    ensures InitFold(s, ins).state.nextSubscription == s.nextSubscription + CountBound(ins)
    ensures |InitFold(s, ins).state.notes| == |s.notes| + CountNotProvided(ins)
    ensures InitFold(s, ins).state.pipelines[..|s.pipelines|] == s.pipelines
    decreases |ins|
  {
    if ins != [] {
      var s' := Step(s, ins[0]).value;
      InitSubscribesEachBoundStore(s', ins[1..]);
      assert s'.pipelines[..|s.pipelines|] == s.pipelines;
    }
  }

  /** The value the last bound entry for `key` assigns, if any. */
  function LastAssigned(ins: seq<PluckInput>, key: string): Option<Value>
  {
    if ins == [] then None
    else match LastAssigned(ins[1..], key)
      case Some(v) => Some(v)
      case None =>
        if ins[0].view.Bound? && ins[0].meta.propertyKey == key
        then Some(Slice(ins[0].view.state, ins[0].meta.traversalKey))
        else None
  }

  /** After a complete run each property holds the slice the last bound entry
      for it selected; a property no bound entry names is left as it was. */
  lemma {:induction false} InitAssignsLastSlice(s: InitState, ins: seq<PluckInput>, key: string)
    requires InitFold(s, ins).error.None?
    ensures LastAssigned(ins, key).Some? ==>
      key in InitFold(s, ins).state.properties && InitFold(s, ins).state.properties[key] == LastAssigned(ins, key).value
    ensures LastAssigned(ins, key).None? ==>
      (key in InitFold(s, ins).state.properties <==> key in s.properties)
      && (key in s.properties ==> InitFold(s, ins).state.properties[key] == s.properties[key])
    decreases |ins|
  {
    if ins != [] {
      InitAssignsLastSlice(Step(s, ins[0]).value, ins[1..], key);
    }
  }

  /** Every entry of `before` is still in `after`, unchanged. */
  ghost predicate Preserves(before: map<nat, nat>, after: map<nat, nat>)
  {
    forall k :: k in before ==> k in after && after[k] == before[k]
  }

  /** A step that keeps every registry entry and tracks the pipelines it
      adds keeps every pipeline tracked that was tracked before it. */
  lemma TrackedStaysTracked(start: map<nat, nat>, before: map<nat, nat>, after: map<nat, nat>,
                            psBefore: seq<Pipeline>, psAfter: seq<Pipeline>, lo: nat)
    requires Preserves(start, before) && Preserves(before, after)
    requires |psBefore| <= |psAfter| && psAfter[..|psBefore|] == psBefore
    requires forall j :: lo <= j < |psBefore| ==> psBefore[j].subscription in before.Values
    requires forall j :: |psBefore| <= j < |psAfter| ==> psAfter[j].subscription in after.Values
    ensures Preserves(start, after)
    ensures forall j :: lo <= j < |psAfter| ==> psAfter[j].subscription in after.Values
  {
    forall j | lo <= j < |psBefore|
      ensures psAfter[j].subscription in after.Values
    {
      assert psAfter[j] == psBefore[j];
      assert psBefore[j].subscription in before.Values;
      var k :| k in before && before[k] == psBefore[j].subscription;
      assert after[k] == psBefore[j].subscription;
    }
  }

  class RtComponentThatCanPluckFromStores {
    const name: string
    /** The subscriptions `addSubscription` tracks for this component. */
    const registry: Registry<nat>
    /** `__pluckFromComponentProperties`; `None` once deleted. */
    var pluckEntries: Option<seq<PluckEntry>>
    /** The decorated properties' current values. */
    var properties: map<string, Value>
    var pipelines: seq<Pipeline>
    var notes: seq<DebugNote>
    var nextSubscription: nat
    /** How many times the `rtOnInit` hook has run. */
    var rtOnInitCalls: nat

    ghost predicate Valid()
      reads this, registry
    {
      registry.Valid()
    }

    function State(): InitState
      reads this
    {
      InitState(properties, pipelines, notes, nextSubscription)
    }

    /** The constructor of an instance `id` of class `cls`: it reads (and
        deletes) the instance's pluck metadata and appends one entry per
        recorded property, in order, with the store `inject` resolves. */
    constructor(name: string, metadata: MetadataRegistry, cls: string, id: nat, inject: StoreType -> RtInjectableStore?)
      modifies metadata
      ensures Valid() && fresh(registry)
      ensures registry.subscriptions == map[] && registry.notes == []
      ensures metadata.lists == old(metadata.lists) - {Instance(cls, id)}
      ensures var recorded := Lookup(old(metadata.lists), Instance(cls, id));
        && pluckEntries == Some(WithStores(if recorded.Some? then recorded.value else [], inject))
        && notes == (if recorded.None? || recorded.value == [] then [NoDecoratedProperties] else [])
      ensures properties == map[] && pipelines == [] && nextSubscription == 0 && rtOnInitCalls == 0
    {
      var recorded := metadata.GetPluckFromComponentProperties(Instance(cls, id));
      var props := if recorded.Some? then recorded.value else [];
      var entries: seq<PluckEntry> := [];
      for i := 0 to |props|
        invariant entries == WithStores(props[..i], inject)
      {
        entries := entries + [PluckEntry(inject(props[i].storeType), props[i])];
      }
      this.name := name;
      registry := new Registry<nat>();
      pluckEntries := Some(entries);
      properties := map[];
      pipelines := [];
      notes := if recorded.None? || recorded.value == [] then [NoDecoratedProperties] else [];
      nextSubscription := 0;
      rtOnInitCalls := 0;
      assert props[..|props|] == props;
    }

    /** `ngOnInit`: every entry is processed in order as `InitFold` says, and
        each new pipeline's subscription is added to the registry, whose
        earlier entries stay. Only when no entry threw does `rtOnInit` run and
        the entry list get deleted, so a second call after a completed one
        throws on the missing list and changes nothing. */
    method NgOnInit() returns (r: Outcome<PluckError>)
      requires Valid()
      modifies this, registry
      ensures Valid()
      ensures old(pluckEntries).None? ==>
        && r == Fail(EntriesDeleted) && State() == old(State()) && pluckEntries == None
        && rtOnInitCalls == old(rtOnInitCalls) && registry.subscriptions == old(registry.subscriptions)
      ensures old(pluckEntries).Some? ==>
        var run := InitFold(old(State()), old(Inputs(pluckEntries.value)));
        && State() == run.state
        && (run.error.Some? ==> r == Fail(run.error.value) && rtOnInitCalls == old(rtOnInitCalls) && pluckEntries == old(pluckEntries))
        && (run.error.None? ==> r == Pass && rtOnInitCalls == old(rtOnInitCalls) + 1 && pluckEntries == None)
      ensures |registry.subscriptions| == |old(registry.subscriptions)| + |pipelines| - |old(pipelines)|
      ensures Preserves(old(registry.subscriptions), registry.subscriptions)
      ensures forall j :: |old(pipelines)| <= j < |pipelines| ==> pipelines[j].subscription in registry.subscriptions.Values
      ensures registry.notes == old(registry.notes)
    {
      if pluckEntries.None? {
        return Fail(EntriesDeleted);
      }
      var error := SubscribeEntries(pluckEntries.value);
      if error.Some? {
        return Fail(error.value);
      }
      rtOnInitCalls := rtOnInitCalls + 1;
      pluckEntries := None;
      r := Pass;
    }

    /** The `forEach` of `ngOnInit` over the given entries: it ends where
        `InitFold` does, with the error that escaped, if any, and it tracks
        the subscription of every pipeline it opens. */
    method SubscribeEntries(entries: seq<PluckEntry>) returns (error: Option<PluckError>)
      requires Valid()
      modifies this`properties, this`pipelines, this`notes, this`nextSubscription, registry
      ensures Valid()
      ensures InitRun(State(), error) == InitFold(old(State()), old(Inputs(entries)))
      ensures |registry.subscriptions| == |old(registry.subscriptions)| + |pipelines| - |old(pipelines)|
      ensures Preserves(old(registry.subscriptions), registry.subscriptions)
      ensures forall j :: |old(pipelines)| <= j < |pipelines| ==> pipelines[j].subscription in registry.subscriptions.Values
      ensures registry.notes == old(registry.notes)
    {
      ghost var ins := Inputs(entries);
      ghost var s0 := State();
      ghost var tracked0 := registry.subscriptions;
      var i := 0;
      while i < |entries|
        invariant 0 <= i <= |entries|
        invariant Valid()
        invariant InitFold(s0, ins) == InitFold(State(), ins[i..])
        invariant |pipelines| >= |s0.pipelines|
        invariant |registry.subscriptions| == |tracked0| + |pipelines| - |s0.pipelines|
        invariant Preserves(tracked0, registry.subscriptions)
        invariant forall j :: |s0.pipelines| <= j < |pipelines| ==> pipelines[j].subscription in registry.subscriptions.Values
        invariant registry.notes == old(registry.notes)
      {
        ghost var sb := State();
        ghost var before := registry.subscriptions;
        assert ins[i..][1..] == ins[i + 1..];
        assert ins[i..][0] == PluckInput(entries[i].meta, ViewOf(entries[i].store));
        error := SubscribeEntry(entries[i]);
        if error.Some? {
          return;
        }
        TrackedStaysTracked(tracked0, before, registry.subscriptions, sb.pipelines, pipelines, |s0.pipelines|);
        i := i + 1;
      }
      error := None;
    }

    /** The `forEach` callback for one entry: it does what `Step` says, and
        a pipeline it opens has its subscription added to the registry. */
    method SubscribeEntry(e: PluckEntry) returns (error: Option<PluckError>)
      requires Valid()
      modifies this`properties, this`pipelines, this`notes, this`nextSubscription, registry
      ensures Valid()
      ensures var step := Step(old(State()), PluckInput(e.meta, old(ViewOf(e.store))));
        && (step.Failure? ==> error == Some(step.error) && State() == old(State()))
        && (step.Success? ==> error.None? && State() == step.value)
      ensures |registry.subscriptions| == |old(registry.subscriptions)| + |pipelines| - |old(pipelines)|
      ensures Preserves(old(registry.subscriptions), registry.subscriptions)
      ensures forall j :: |old(pipelines)| <= j < |pipelines| ==> pipelines[j].subscription in registry.subscriptions.Values
      ensures registry.notes == old(registry.notes)
    {
      if e.store == null {
        notes := notes + [StoreNotProvided(e.meta.storeType.name)];
      } else if e.store.stateSource == null {
        return Some(StateStreamUndefined(e.meta.propertyKey));
      } else {
        var source := e.store.stateSource;
        var p := Pipeline(e.meta.propertyKey, e.meta.traversalKey, source, nextSubscription);
        properties := properties[e.meta.propertyKey := Slice(source.latest, e.meta.traversalKey)];
        registry.AddSubscription(Some(nextSubscription));
        assert nextSubscription == registry.subscriptions[old(registry.nextKey)];
        pipelines := pipelines + [p];
        nextSubscription := nextSubscription + 1;
      }
      error := None;
    }

    /** The followed source emitted: the pipeline's property takes the new
        slice. */
    method Sync(i: nat)
      requires Valid() && i < |pipelines|
      requires pipelines[i].subscription in registry.subscriptions.Values
      modifies this`properties
      ensures properties == old(properties)[pipelines[i].propertyKey := Slice(pipelines[i].source.latest, pipelines[i].traversalKey)]
    {
      var p := pipelines[i];
      properties := properties[p.propertyKey := Slice(p.source.latest, p.traversalKey)];
    }

    /** The followed stream errored: `catchError` sits after the assigning
        step, so the error is logged, the property keeps its value, and the
        replacement `of(null)` completes the subscription, whose teardown
        removes it from the registry. */
    method PipelineErrored(i: nat, error: Value)
      requires Valid() && i < |pipelines|
      requires pipelines[i].subscription in registry.subscriptions.Values
      modifies this`notes, registry`subscriptions
      ensures Valid()
      ensures notes == old(notes) + [PipelineFailed(pipelines[i].propertyKey, error)]
      ensures registry.subscriptions == Without(old(registry.subscriptions), pipelines[i].subscription)
      ensures |registry.subscriptions| < |old(registry.subscriptions)|
    {
      var p := pipelines[i];
      notes := notes + [PipelineFailed(p.propertyKey, error)];
      ghost var k :| k in registry.subscriptions && registry.subscriptions[k] == p.subscription;
      assert k in KeysOf(registry.subscriptions, p.subscription);
      registry.OnSubscriptionClosed(p.subscription);
    }
  }

  /** The property `name` of `NameComponent`, plucked from `NameStore`. */
  const NameMetadata := PluckMetadata("name", StoreType("NameStore"), Some("name"), false)

  /** An instance of a class whose one decorated property is `name`,
      plucking the `name` key of the given store. */
  method NewNameComponent(store: RtInjectableStore) returns (c: RtComponentThatCanPluckFromStores)
    ensures fresh(c) && fresh(c.registry) && c.Valid()
    ensures c.pluckEntries == Some([PluckEntry(store, NameMetadata)])
    ensures c.State() == InitState(map[], [], [], 0) && c.registry.subscriptions == map[]
  {
    var metadata := new MetadataRegistry();
    metadata.Decorate("NameComponent", "name", StoreType("NameStore"), Some(PluckOptions(Some("name"), Option.None)));
    assert metadata.lists == map[Prototype("NameComponent") := [NameMetadata]];
    assert Lookup(metadata.lists, Instance("NameComponent", 0)) == Some([NameMetadata]);
    var inject: StoreType -> RtInjectableStore? := t => store;
    assert WithStores([NameMetadata], inject) == [PluckEntry(store, NameMetadata)];
    c := new RtComponentThatCanPluckFromStores("NameComponent", metadata, "NameComponent", 0, inject);
  }

  /** A component with one decorated property on a bound store: after
      `ngOnInit` the property holds the plucked key of the store's state, and
      it follows the next state the source emits; a second `ngOnInit` throws,
      since the first deleted the entry list. */
  method PluckedPropertyFollowsStore() returns (initial: Value, synced: Value, again: Outcome<PluckError>)
    ensures initial == Str("Ada") && synced == Str("Grace")
    ensures again == Fail(EntriesDeleted)
  {
    var source := new StateSource(Obj(map["name" := Str("Ada")]));
    var store := new RtInjectableStore();
    var bound := store.Initialize(source, RtErrors.StoreSourceEngine);
    assert bound == Pass;
    var c := NewNameComponent(store);
    assert Inputs([PluckEntry(store, NameMetadata)]) == [PluckInput(NameMetadata, Bound(source, Obj(map["name" := Str("Ada")])))];
    ghost var ins := [PluckInput(NameMetadata, Bound(source, Obj(map["name" := Str("Ada")])))];
    assert InitFold(InitState(map[], [], [], 0), ins)
        == InitRun(InitState(map["name" := Str("Ada")], [Pipeline("name", Some("name"), source, 0)], [], 1), Option.None);
    var r := c.NgOnInit();
    assert c.pipelines == [Pipeline("name", Some("name"), source, 0)];
    initial := c.properties["name"];
    source.Next(Obj(map["name" := Str("Grace")]));
    c.Sync(0);
    synced := c.properties["name"];
    again := c.NgOnInit();
  }
}
