# rt-state in Dafny

This project models the state layer of the `@rt/abstractions` Angular library, plus the pieces that layer relies on.

- **AutoUnsubscribe registry.** A component keeps the subscriptions it opened in a keyed registry. Each entry removes itself when its subscription closes. On destroy, the component unsubscribes a snapshot of every entry and then runs its `rtOnDestroy` hook.
- **Store / engine binding.** An `RtInjectableStore` is bound once, by an `RtStoreSourceEngine`, to a state source. After that it is frozen. An engine must be built with an `RtStoreContainer`.
- **Event buses.** `RtCommonEventBus` and `RtCustomEventBus` wrap an event emitter. `listen` checks that the listener is a container, sets a sticky flag, and refuses when the emitter already has too many observers. `dispatch` fans an event out to the current observers.
- **Container audit.** After view init, a container built with `logInfo` checks each of its fields. Every engine, store and bus must be wired through the proper classes. The audit throws on the first field that is not, and otherwise counts each kind. Only after that does the `rtAfterViewInit` hook run.
- **Pluck pipeline.** `@PluckFromStore` records decorated properties as class metadata. The component constructor reads that metadata and resolves each store. `ngOnInit` subscribes each property to its store's state, or to one key of it. A pipeline that errors is logged, and its property keeps its value.
- **Logger.** `RtLogger` gates each of its six methods on the configured log level. Warn, error and fatal also post to the backend.
- **Array pipes.** The demo app's `get` and `pluck` pipes.

Stateful parts are Dafny classes whose methods say exactly what they change. Specification functions and lemmas state what the source promises about them.

Observable effects are modelled as traces held by the objects:
- console lines and backend posts (`RtLog.Effect`)
- emitter deliveries (`EventBusCore.Delivery`)
- unsubscribe calls (`AutoUnsubscribe.Note`)
- the component's `log.debug` calls (`PluckComponent.DebugNote`), which print only if the logger's gate lets them through

A thrown error is an `Outcome`/`Result` value. The errors thrown by stores, engines and event buses carry the exact message of the source's `Error` in `RtErrors.Message`. The container audit's errors are `StoreContainer.AuditError` values, and their exact messages are in `StoreContainer.AuditMessage`.

`instanceof` is modelled as the `RtErrors.Kind` datatype: StoreContainer, StoreSourceEngine, or OtherObject.

**The observer limit, as written.** The doc comments of `listen` and its error message say an event bus allows one observer. The guard actually refuses only when the emitter already has more than one (`observers?.length > 1`, at `rt-common-event-bus.ts:147` and `rt-custom-event-bus.ts:96`). So a second listener is admitted and only a third `listen` throws. The model follows the code: see `EventBusCore.ListenOutcome` and the two `SecondListenerAdmitted` methods.

The buses' "only one observer" tests do not notice this. Their `catch` block compares an `Error` object with a string, and it runs only if something throws, which with two listeners nothing does.

**An unset log level logs everything.** `AbstractionsModule` provides a bare `RtLogConfig` unless the app calls `forRoot` (`abstractions.module.ts:15`), and that class leaves `logLevel` undefined (`rt-log-config.ts:9`). `_getLogLevel` then returns `undefined`, and every gate `undefined > level` is false, so every message is logged and warn, error and fatal reach the backend. That is the opposite of what the logger does when the config itself is missing. The model follows the code: see `RtLog.Passes` and `RtLog.UndefinedLevelLogsLikeAll`.

## Model

| member | source | states |
|---|---|---|
| AutoUnsubscribe.Registry.constructor | libs/abstractions/src/lib/utils/auto-unsubscribe.ts:21-23 | A new registry is empty, with the key counter at 0. |
| AutoUnsubscribe.Registry.AddSubscription | libs/abstractions/src/lib/utils/auto-unsubscribe.ts:43-52 | A null subscription changes neither the map nor the counter. Otherwise the subscription is stored under the old counter value, a key not yet in use; the counter rises by one and the size by one. Keys stay below the counter. |
| AutoUnsubscribe.Registry.OnSubscriptionClosed | libs/abstractions/src/lib/utils/auto-unsubscribe.ts:49-51 | When a subscription closes, exactly the keys holding it are deleted; every other entry is unchanged, and the size drops by the number of keys deleted. |
| AutoUnsubscribe.Without | libs/abstractions/src/lib/utils/auto-unsubscribe.ts:49-51 | The teardown's result keeps every entry whose value differs from the closed subscription, unchanged, and no other. |
| AutoUnsubscribe.WithoutSize | libs/abstractions/src/lib/utils/auto-unsubscribe.ts:49-51 | The size after the teardown is the old size minus the number of keys that held the subscription. |
| AutoUnsubscribe.Registry.Unsubscribe | libs/abstractions/src/lib/utils/auto-unsubscribe.ts:60 | `unsubscribe()` is recorded, then the subscription's teardown removes its entries. |
| AutoUnsubscribe.Snapshot | libs/abstractions/src/lib/utils/auto-unsubscribe.ts:58 | Every subscription held in the registry appears in the snapshot. |
| AutoUnsubscribe.SnapshotFollowsKeys | libs/abstractions/src/lib/utils/auto-unsubscribe.ts:58 | The snapshot lists the values in increasing key order, which is insertion order: one value per key in use. |
| AutoUnsubscribe.SnapshotOfEmpty | libs/abstractions/src/lib/utils/auto-unsubscribe.ts:56 | An empty registry yields an empty snapshot. |
| AutoUnsubscribe.RemainingAfterAll | libs/abstractions/src/lib/utils/auto-unsubscribe.ts:58-61 | Once every value of the snapshot has been unsubscribed, no entry remains. |
| AutoUnsubscribe.Registry.CleanupSubscriptions | libs/abstractions/src/lib/utils/auto-unsubscribe.ts:55-62 | On an empty registry nothing happens. Otherwise each snapshot value is unsubscribed once, in insertion order, and the registry ends empty. |
| AutoUnsubscribe.Registry.NgOnDestroy | libs/abstractions/src/lib/utils/auto-unsubscribe.ts:26-32 | Cleanup runs first (the registry ends empty), and `rtOnDestroy` runs after it. |
| AutoUnsubscribe.RegistrySizesFollowTheTest | libs/abstractions/src/lib/utils/auto-unsubscribe.spec.ts:27-41 | Three adds and two completions give sizes 1, 2, 3, 2, 1; destroy gives 0. |
| RtLogLevel.Value | libs/abstractions/src/lib/rt-log/rt-log-level.enum.ts:2-23 | All is 0, None is 1000, and each of the six logging levels is a multiple of 50 from 50 to 500. |
| RtLogLevel.LevelsStrictlyIncreasing | libs/abstractions/src/lib/rt-log/rt-log-level.enum.ts:1-24 | All < Trace < Debug < Info < Warn < Error < Fatal < None numerically. |
| RtLogLevel.LevelsListsEveryLevelOnce | libs/abstractions/src/lib/rt-log/rt-log-level.enum.ts:1-24 | The declaration-order list holds each of the eight levels exactly once. |
| RtLogLevel.ValueInjective | libs/abstractions/src/lib/rt-log/rt-log-level.enum.ts:2-23 | The eight numeric values are distinct, so the gate orders levels totally. |
| RtLogLevel.AllIsMinimumNoneIsMaximum | libs/abstractions/src/lib/rt-log/rt-log-level.enum.ts:2-23 | All (0) is at or below every level; None (1000) is above Fatal (500), which is at or above every other level. |
| RtLog.ChannelFor | libs/abstractions/src/lib/rt-log/rt-logger.ts:17-34 | Warn goes to `console.warn`; Error and Fatal go to `console.error`; Info goes to `console.info`; anything else goes to `console.log`. Each holds in both directions. |
| RtLog.LogToConsole | libs/abstractions/src/lib/rt-log/rt-logger.ts:14-35 | One console line at the given level, on that level's channel, with the message and meta unchanged. |
| RtLog.ConfigDiagnostics | libs/abstractions/src/lib/rt-log/rt-logger.ts:141-143 | Exactly one line, the Debug "not configured" line with null meta on `console.log`, when there is no config; nothing otherwise. |
| RtLog.Passes | libs/abstractions/src/lib/rt-log/rt-logger.ts:50-52 | Without a config no method passes the gate. With a configured level, a method passes iff that level is at or below the method's level. With a config whose level is undefined, every method passes, since `undefined > n` is false. The same gate guards all six methods (lines 50, 62, 74, 90, 107, 124). |
| RtLog.DecorateLogMessage | libs/abstractions/src/lib/rt-log/rt-logger.ts:41-43 | The backend message is the prefix, then " - ", then the message, and each part can be read back from it. |
| RtLog.EffectiveLevel | libs/abstractions/src/lib/rt-log/rt-logger.ts:144 | With a config the level is the config's own, possibly undefined. Without one it is above the level of every logging method, so nothing passes the gate. |
| RtLog.CallEffects | libs/abstractions/src/lib/rt-log/rt-logger.ts:49-132 | One call writes the missing-config line (when there is no config) and then, past the gate, one console line on the method's channel. Warn, error and fatal add one backend post. The call writes nothing else, and every backend post carries the method's level, the decorated message, the route and the meta. |
| RtLog.GateIsThreshold | libs/abstractions/src/lib/rt-log/rt-logger.ts:49-132 | With a configured level, a call at level L produces output iff the configured level ≤ L. This agrees with the 8 × 6 table of the logger's tests. |
| RtLog.BelowWarnStaysOnConsole | libs/abstractions/src/lib/rt-log/rt-logger.ts:49-79 | trace, debug and info never reach the backend, whatever the configuration. |
| RtLog.ForwardedCallsPostOnce | libs/abstractions/src/lib/rt-log/rt-logger.ts:89-132 | An unfiltered warn, error or fatal writes one console line on its channel, then makes one backend call. That call carries the method's level, the decorated message, the route and the meta. |
| RtLog.UndefinedLevelLogsLikeAll | libs/abstractions/src/lib/rt-log/rt-logger.ts:139-145 | A config whose level is undefined produces exactly the output of one set to All: each method's console line, and a backend post for warn, error and fatal. |
| RtLog.MissingConfigSilences | libs/abstractions/src/lib/rt-log/rt-logger.ts:139-145 | Without a config, every call's only output is one Debug line via `console.log`, with the "not configured" text and a null meta. |
| RtLog.RtLogger.GetLogLevel | libs/abstractions/src/lib/rt-log/rt-logger.ts:139-145 | It returns the config's level (undefined when the config leaves it unset), or None without a config; in that case the diagnostic line is written first. |
| RtLog.RtLogger.constructor | libs/abstractions/src/lib/rt-log/rt-logger.ts:7-12 | A logger holds its prefix and the global config, and has produced no output. |
| RtLog.RtLogger.Trace | libs/abstractions/src/lib/rt-log/rt-logger.ts:49-55 | It appends exactly the effects `CallEffects` gives for trace. |
| RtLog.RtLogger.Debug | libs/abstractions/src/lib/rt-log/rt-logger.ts:61-67 | It appends exactly the effects `CallEffects` gives for debug. |
| RtLog.RtLogger.Info | libs/abstractions/src/lib/rt-log/rt-logger.ts:73-79 | It appends exactly the effects `CallEffects` gives for info. |
| RtLog.RtLogger.Warn | libs/abstractions/src/lib/rt-log/rt-logger.ts:89-96 | It appends exactly the effects `CallEffects` gives for warn, including the backend post. |
| RtLog.RtLogger.Error | libs/abstractions/src/lib/rt-log/rt-logger.ts:106-113 | It appends exactly the effects `CallEffects` gives for error, including the backend post. |
| RtLog.RtLogger.Fatal | libs/abstractions/src/lib/rt-log/rt-logger.ts:123-132 | It appends exactly the effects `CallEffects` gives for fatal, including the backend post. |
| RtErrors.Message | libs/abstractions/src/lib/rt-state/rt-injectable-store/rt-injectable-store.ts:100-107 | Each wiring error has a non-empty message: the text of the `Error` the store (here), the engine (rt-store-source-engine.ts:34), the common bus (rt-common-event-bus.ts:145 and :148) or the custom bus (rt-custom-event-bus.ts:94 and :97) throws. |
| RtErrors.MessagesDistinct | libs/abstractions/src/lib/rt-state/rt-event-bus/rt-common-event-bus.ts:142-149 | No two wiring errors share a message, so the message alone tells which rule was broken. |
| InjectableStore.BindOutcome | libs/abstractions/src/lib/rt-state/rt-injectable-store/rt-injectable-store.ts:100-107 | A bind succeeds iff the store is unbound and the caller is an engine. A bound store reports "State source already bound." to any caller. An unbound store reports the engine error to a non-engine caller. |
| InjectableStore.RtInjectableStore.constructor | libs/abstractions/src/lib/rt-state/rt-injectable-store/rt-injectable-store.ts:75-77 | A new store is unbound, not initialized by an engine, and not frozen. |
| InjectableStore.RtInjectableStore.Initialize | libs/abstractions/src/lib/rt-state/rt-injectable-store/rt-injectable-store.ts:96-113 | The result is `BindOutcome`. A failure changes nothing. A success binds the given source, sets the engine flag and freezes the store. A frozen store refuses every later bind, and "bound ⇔ flag ⇔ frozen" is kept. |
| InjectableStore.RtInjectableStore.ObservedState | libs/abstractions/src/lib/rt-state/rt-injectable-store/rt-injectable-store.ts:109-111 | Subscribers see nothing while the store is unbound, and the bound source's latest value once it is bound. |
| InjectableStore.ReceivesStateChanges | libs/abstractions/src/lib/rt-state/rt-injectable-store/rt-injectable-store.spec.ts:34-45 | A freshly bound store shows null, then the value pushed into its source. |
| StoreSourceEngine.RtStoreSourceEngine.constructor | libs/abstractions/src/lib/rt-state/rt-store-source-engine/rt-store-source-engine.ts:30-33 | Built with a container, an engine is constructed correctly and not yet initialized. |
| StoreSourceEngine.RtStoreSourceEngine.Construct | libs/abstractions/src/lib/rt-state/rt-store-source-engine/rt-store-source-engine.ts:30-38 | Construction fails iff the argument is not a container. The error is the container message, and no engine results. |
| StoreSourceEngine.RtStoreSourceEngine.Initialize | libs/abstractions/src/lib/rt-state/rt-store-source-engine/rt-store-source-engine.ts:44-50 | It binds the store once, with its arguments unchanged; the outcome is the store's. `initialized` becomes true only when the bind did not throw, and is otherwise left as it was. |
| StoreSourceEngine.OnlyOneInitialization | libs/abstractions/src/lib/rt-state/rt-injectable-store/rt-injectable-store.spec.ts:47-54 | A second engine binding the same store fails with "State source already bound." and stays uninitialized. |
| EventBusCore.Fanout | libs/abstractions/src/lib/rt-state/rt-event-bus/rt-common-event-bus.ts:125-127 | An emit delivers the event once to each current observer, in order, and nothing when there are none. |
| EventBusCore.ListenOutcome | libs/abstractions/src/lib/rt-state/rt-event-bus/rt-common-event-bus.ts:142-149 | A non-container listener gets the listener error. A container is refused with "Max observer limit of one reached." iff the emitter has more than one observer. Otherwise listen passes. |
| EventBusCore.Emitter.constructor | libs/abstractions/src/lib/rt-state/rt-event-bus/rt-common-event-bus.ts:118 | A new emitter has no observers and has delivered nothing. |
| EventBusCore.Emitter.Emit | libs/abstractions/src/lib/rt-state/rt-event-bus/rt-common-event-bus.ts:126 | The delivery trace grows by exactly the fan-out to the current observers. |
| EventBusCore.Emitter.Subscribe | libs/abstractions/src/lib/rt-state/rt-event-bus/rt-common-event-bus.ts:150 | Subscribing to the returned stream appends exactly one new observer, with a fresh id. |
| CommonEventBus.RtCommonEventBus.constructor | libs/abstractions/src/lib/rt-state/rt-event-bus/rt-common-event-bus.ts:118-119 | A new bus has a fresh emitter with no observers, and the flag is false. |
| CommonEventBus.RtCommonEventBus.Dispatch | libs/abstractions/src/lib/rt-state/rt-event-bus/rt-common-event-bus.ts:125-127 | The event is delivered to each current observer, and to nobody when there is none. |
| CommonEventBus.RtCommonEventBus.Listen | libs/abstractions/src/lib/rt-state/rt-event-bus/rt-common-event-bus.ts:141-157 | It returns the dispatcher's stream, or the `ListenOutcome` error. It adds no observer. A container sets the flag even when the observer check then throws. A non-container leaves the flag as it was, so the flag never goes back to false. |
| CommonEventBus.DispatchAndListen | libs/abstractions/src/lib/rt-state/rt-event-bus/rt-common-event-bus.spec.ts:25-34 | One listening container receives exactly the dispatched `create` event, and the flag is set. |
| CommonEventBus.SecondListenerAdmitted | libs/abstractions/src/lib/rt-state/rt-event-bus/rt-common-event-bus.ts:147-149 | Two listen-and-subscribe rounds both succeed; only the third `listen` throws the limit error. |
| CustomEventBus.RtCustomEventBus.constructor | libs/abstractions/src/lib/rt-state/rt-event-bus/rt-custom-event-bus.ts:67-68 | A new bus has a fresh emitter with no observers, and the flag is false. |
| CustomEventBus.RtCustomEventBus.Dispatch | libs/abstractions/src/lib/rt-state/rt-event-bus/rt-custom-event-bus.ts:74-76 | The payload is delivered unchanged to each current observer, and to nobody when there is none. |
| CustomEventBus.RtCustomEventBus.Listen | libs/abstractions/src/lib/rt-state/rt-event-bus/rt-custom-event-bus.ts:90-106 | Same guards as the common bus: the listener check comes first and the flag is set before the `> 1` observer check. Listen subscribes nothing, and the flag is monotone. |
| CustomEventBus.DispatchAndListen | libs/abstractions/src/lib/rt-state/rt-event-bus/rt-custom-event-bus.spec.ts:18-27 | One listening container receives exactly the dispatched payload. |
| CustomEventBus.SecondListenerAdmitted | libs/abstractions/src/lib/rt-state/rt-event-bus/rt-custom-event-bus.ts:96-98 | Two listen-and-subscribe rounds both succeed; only the third `listen` throws the limit error. |
| StoreContainer.FirstMiswired | libs/abstractions/src/lib/rt-state/rt-store-container.ts/rt-store-container.ts:64-101 | It finds the first field whose engine, store or bus flag is not true, or reports none iff every field is wired. |
| StoreContainer.AuditSpec | libs/abstractions/src/lib/rt-state/rt-store-container.ts/rt-store-container.ts:64-101 | A failure names a field that is mis-wired. On success the four counts add up to the number of fields that are engines, stores or buses. |
| StoreContainer.CountsPartition | libs/abstractions/src/lib/rt-state/rt-store-container.ts/rt-store-container.ts:59-62 | Every field falls under exactly one of the four counted kinds or none of them. |
| StoreContainer.AuditMessage | libs/abstractions/src/lib/rt-state/rt-store-container.ts/rt-store-container.ts:67-96 | The thrown message opens with the field's key, followed by the text for its kind of mis-wiring. |
| StoreContainer.Audit | libs/abstractions/src/lib/rt-state/rt-store-container.ts/rt-store-container.ts:58-102 | The loop's result is `AuditSpec`: the first mis-wired field's error, or the four counters of the fields of each kind. |
| StoreContainer.AuditPassesIffAllWired | libs/abstractions/src/lib/rt-state/rt-store-container.ts/rt-store-container.ts:64-101 | The audit passes iff every field is wired. A failure names the first field that is not, and its kind's message. |
| StoreContainer.PlainFieldIgnored | libs/abstractions/src/lib/rt-state/rt-store-container.ts/rt-store-container.ts:64-101 | Inserting a field that is neither engine, store nor bus anywhere leaves the audit's result unchanged. |
| StoreContainer.ViewInitSpec | libs/abstractions/src/lib/rt-state/rt-store-container.ts/rt-store-container.ts:57-105 | Without `logInfo` nothing is audited. With it, the outcome is the audit's error or its counts. |
| StoreContainer.RtStoreContainer.constructor | libs/abstractions/src/lib/rt-state/rt-store-container.ts/rt-store-container.ts:47-49 | A container keeps its name and its `logInfo` choice. |
| StoreContainer.RtStoreContainer.NgAfterViewInit | libs/abstractions/src/lib/rt-state/rt-store-container.ts/rt-store-container.ts:57-105 | The outcome is `ViewInitSpec`. `rtAfterViewInit` runs once exactly when the audit did not fail. |
| PluckFromStore.Record | libs/abstractions/src/lib/rt-state/rt-pluck-from-store/rt-pluck-from-store.ts:100-122 | The record stores the property key and store type as given. Without options, traversalKey is null and logInfo false; with options, their traversalKey is kept and logInfo is true only when it was true. |
| PluckFromStore.Lookup | libs/abstractions/src/lib/rt-state/rt-pluck-from-store/rt-pluck-from-store.ts:138 | A target's own list is found first; an instance without one falls back to its class's list. |
| PluckFromStore.MetadataRegistry.Decorate | libs/abstractions/src/lib/rt-state/rt-pluck-from-store/rt-pluck-from-store.ts:104-125 | A class's first decoration creates a list holding just its record. Later ones append at the end. No other class's list changes. |
| PluckFromStore.MetadataRegistry.GetPluckFromComponentProperties | libs/abstractions/src/lib/rt-state/rt-pluck-from-store/rt-pluck-from-store.ts:128-142 | It returns the list as read, then deletes only the metadata on the object itself. |
| PluckFromStore.DecoratedInOrder | libs/abstractions/src/lib/rt-state/rt-pluck-from-store/rt-pluck-from-store.ts:119-123 | Two decorations of one class, with and without options, are read back from an instance in declaration order, with their defaults. |
| PluckComponent.Slice | libs/abstractions/src/lib/rt-state/rt-pluck-from-store/rt-component-that-can-pluck-from-stores.ts:69-74 | With a truthy traversal key, the result is the key's value in the state, or undefined when the state has no such key. With no key or an empty one, it is the whole state. |
| PluckComponent.WithStores | libs/abstractions/src/lib/rt-state/rt-pluck-from-store/rt-component-that-can-pluck-from-stores.ts:39-42 | One entry per recorded property, in order, each with the store resolved for its store type. |
| PluckComponent.RtComponentThatCanPluckFromStores.constructor | libs/abstractions/src/lib/rt-state/rt-pluck-from-store/rt-component-that-can-pluck-from-stores.ts:30-43 | The entry list is `WithStores` of the metadata read for the instance (empty without metadata), and that metadata is deleted. A `log.debug` call is made iff there was nothing to read. |
| PluckComponent.ViewOf | libs/abstractions/src/lib/rt-state/rt-pluck-from-store/rt-component-that-can-pluck-from-stores.ts:57-68 | A store is not provided iff `inject` gave null, unbound iff it is provided without a state source, and otherwise bound, showing its source's latest state. |
| PluckComponent.Inputs | libs/abstractions/src/lib/rt-state/rt-pluck-from-store/rt-component-that-can-pluck-from-stores.ts:54-55 | One input per entry, in order, pairing its metadata with what its store offers when the loop reaches it. |
| PluckComponent.Step | libs/abstractions/src/lib/rt-state/rt-pluck-from-store/rt-component-that-can-pluck-from-stores.ts:55-91 | One entry throws iff its store is provided but unbound. Otherwise it only appends: a not-provided store adds one `log.debug` call; a bound store adds one pipeline under the next subscription id, following that store's source. It leaves every other property unchanged. |
| PluckComponent.InitFold | libs/abstractions/src/lib/rt-state/rt-pluck-from-store/rt-component-that-can-pluck-from-stores.ts:54-92 | The loop stops at the first throw. Even a run that throws keeps the earlier pipelines, and the pipelines it adds carry consecutive subscription ids from the counter on. |
| PluckComponent.RtComponentThatCanPluckFromStores.NgOnInit | libs/abstractions/src/lib/rt-state/rt-pluck-from-store/rt-component-that-can-pluck-from-stores.ts:50-96 | The entries are processed in order as `InitFold` says. Each new pipeline's subscription is in the registry, whose earlier entries stay unchanged, and the registry grows by one entry per new pipeline. `rtOnInit` runs, and the list is deleted, only when no entry threw. A call after a completed one throws on the deleted list and changes nothing. |
| PluckComponent.RtComponentThatCanPluckFromStores.SubscribeEntries | libs/abstractions/src/lib/rt-state/rt-pluck-from-store/rt-component-that-can-pluck-from-stores.ts:54-92 | The `forEach` ends where `InitFold` ends, with the error that escaped, if any. Every pipeline it opens has its subscription in the registry, and earlier entries are kept. |
| PluckComponent.RtComponentThatCanPluckFromStores.SubscribeEntry | libs/abstractions/src/lib/rt-state/rt-pluck-from-store/rt-component-that-can-pluck-from-stores.ts:55-91 | One callback does what `Step` says, changes nothing when it throws, and adds the subscription of the pipeline it opens to the registry. |
| PluckComponent.TrackedStaysTracked | libs/abstractions/src/lib/rt-state/rt-pluck-from-store/rt-component-that-can-pluck-from-stores.ts:67-91 | A later callback keeps every registry entry, so each pipeline tracked before it stays tracked. |
| PluckComponent.InitFailsIffUnboundStore | libs/abstractions/src/lib/rt-state/rt-pluck-from-store/rt-component-that-can-pluck-from-stores.ts:67-68 | `ngOnInit` throws iff some entry's store is provided but not yet bound (its `state$` is undefined). The error names the first such entry. |
| PluckComponent.InitSubscribesEachBoundStore | libs/abstractions/src/lib/rt-state/rt-pluck-from-store/rt-component-that-can-pluck-from-stores.ts:54-92 | A complete run adds exactly one pipeline and subscription per bound store. Stores that are not provided add only a `log.debug` call each, and earlier pipelines are kept. |
| PluckComponent.InitAssignsLastSlice | libs/abstractions/src/lib/rt-state/rt-pluck-from-store/rt-component-that-can-pluck-from-stores.ts:69-86 | After a complete run each property holds the slice assigned by the last bound entry that names it. A property no bound entry names keeps its value. |
| PluckComponent.RtComponentThatCanPluckFromStores.Sync | libs/abstractions/src/lib/rt-state/rt-pluck-from-store/rt-component-that-can-pluck-from-stores.ts:69-86 | A new emission of a live pipeline's source assigns that pipeline's slice to its property, and nothing else. |
| PluckComponent.RtComponentThatCanPluckFromStores.PipelineErrored | libs/abstractions/src/lib/rt-state/rt-pluck-from-store/rt-component-that-can-pluck-from-stores.ts:87-91 | A `log.debug` call records the error, and the property keeps its value. The pipeline completes, and its subscription leaves the registry. |
| PluckComponent.NewNameComponent | libs/abstractions/src/lib/rt-state/rt-pluck-from-store/rt-component-that-can-pluck-from-stores.ts:30-43 | A class with one decorated property yields an instance with one entry for it, holding the injected store, and no pipelines yet. |
| PluckComponent.PluckedPropertyFollowsStore | libs/abstractions/src/lib/rt-state/rt-pluck-from-store/rt-component-that-can-pluck-from-stores.ts:54-95 | After `ngOnInit` on a bound store the property holds the plucked key of the state, then follows the source's next state. A second `ngOnInit` throws on the deleted list. |
| GetPipe.Transform | apps/biscuits/src/app/pipes/get.pipe.ts:7-9 | A defined result is an element whose `key` equals `val`, with no match before it. The result is undefined iff nothing matches. A null element reached first throws. |
| PluckPipe.Transform | apps/biscuits/src/app/pipes/pluck.pipe.ts:7-9 | The output has the input's length and `out[i] == value[i][key]`. It throws iff some element is null or undefined. |

## Left out

- **Angular itself.** `inject` is a function parameter from store type to a store or null. Directives, lifecycle scheduling and change detection are not modelled. The NgZone widget decorator and the widget component are not part of this model.
- **HTTP, console and browser globals.** The backend is an appended `Backend` effect. The console timestamp is not modelled. `location.pathname + location.search` is the `activeRoute` parameter.
- **RxJS scheduling.** Delivery is synchronous: subscribing replays the current value (as `shareReplay(1)` over a behaviour subject does), and each later emission is one `Sync` call. Timers and `tick` are not modelled.
- **`Object.freeze` and `instanceof`.** Freezing is the `frozen` flag, and `instanceof` is the `Kind` datatype. The model does not capture class inheritance between stores, engines and containers, nor a freeze stopping writes by other code.
- **The AutoUnsubscribe mixin's override check** (libs/abstractions/src/lib/utils/auto-unsubscribe.ts:67-83). It relies on prototype and function identity.
- **Reflect-metadata.** An instance falls back only to its own class's list. The prototype chain between component classes is not modelled. Nothing is claimed about what a second instance reads after the first deleted its own (absent) entry.
- **Debug lines gated by `logInfo`.** The following are not modelled:
  - the `tap` logging of bus events
  - the pluck pipeline's "initializing" and "syncing" lines
  - the container's per-field lines and its summary line (the counts are returned instead)
- **JavaScript values.**
  - Numbers are integers; NaN and fractions are not modelled.
  - Objects are compared by value, so the `===` in the `get` pipe is structural rather than reference equality on objects.
  - Properties of primitives (such as a string's `length`) read as undefined, and so do inherited properties of objects (such as `toString` or `constructor`): only own properties are modelled. This affects `PluckComponent.Slice` and both pipes.
  - `null` and `undefined` traversal keys are one case.
  - Keys are strings only.
- AutoUnsubscribe.Registry.AddSubscription: does not model adding a subscription that is already closed. RxJS would run the teardown at once and remove the new entry immediately.
- EventBusCore.Emitter.Subscribe: observers never leave the emitter. Unsubscribing from a bus stream is not modelled, so the count seen by `listen` only grows.
- InjectableStore.RtInjectableStore.Initialize: a null or undefined source argument is not modelled. The TypeScript signature excludes it.
- PluckComponent.RtComponentThatCanPluckFromStores.NgOnInit: does not model the stores' states changing while the loop runs. Nothing in the loop can change them.
- GetPipe.Transform: the array itself is never null or undefined. The async pipe's first `null`, on which `value.find` throws a TypeError, is not modelled.
- PluckPipe.Transform: the array itself is never null or undefined. The async pipe's first `null`, on which `value.map` throws a TypeError, is not modelled.
- **The demo application** (stores, services, components, module) and the configuration and barrel files are not part of this model. The `get` and `pluck` pipes are the exception.
