/** RtCustomEventBus: an event bus carrying payloads of any type unchanged,
    listened to by a store container. */
module CustomEventBus {
  import opened Wrappers
  import opened RtErrors
  import opened EventBusCore

  class RtCustomEventBus<T> {
    const dispatcher: Emitter<T>
    var listenedByAnRtStoreContainer: bool

    constructor()
      ensures fresh(dispatcher) && dispatcher.Valid()
      ensures dispatcher.observers == [] && dispatcher.delivered == []
      ensures !listenedByAnRtStoreContainer
    {
      dispatcher := new Emitter();
      listenedByAnRtStoreContainer := false;
    }

    /** `dispatch(event)`: the payload is delivered unchanged to each current observer, and to nobody
        when there is none. */
    method Dispatch(event: T)
      modifies dispatcher`delivered
      ensures dispatcher.delivered == old(dispatcher.delivered) + Fanout(dispatcher.observers, event)
    {
      dispatcher.Emit(event);
    }

    /** `listen(listener, logInfo)`: on success the stream to subscribe to,
        which is the dispatcher itself; listening does not subscribe. A
        container listener sets the flag even when the observer check then
        throws; any other listener leaves it as it was. */
    method Listen(listener: Kind, logInfo: bool) returns (r: Result<Emitter<T>, RtError>)
      modifies this`listenedByAnRtStoreContainer
      ensures ListenOutcome(listener, |dispatcher.observers|).Pass? ==> r == Success(dispatcher)
      ensures ListenOutcome(listener, |dispatcher.observers|).Fail? ==> r == Failure(ListenOutcome(listener, |dispatcher.observers|).error)
      ensures listenedByAnRtStoreContainer == (old(listenedByAnRtStoreContainer) || listener == StoreContainer)
    {
      if listener == StoreContainer {
        listenedByAnRtStoreContainer := true;
      } else {
        return Failure(BusListenerNotContainer);
      }
      if |dispatcher.observers| > 1 {
        return Failure(MaxObserverLimitReached);
      }
      r := Success(dispatcher);
    }
  }

  /** A container listens and subscribes, then a payload is dispatched: the
      one observer receives exactly that payload, unchanged. */
  method DispatchAndListen() returns (listened: bool, deliveries: seq<Delivery<string>>)
    ensures listened
    ensures |deliveries| == 1 && deliveries[0].event == "newProp"
  {
    var bus := new RtCustomEventBus<string>();
    var stream := bus.Listen(StoreContainer, false);
    var id := bus.dispatcher.Subscribe();
    bus.Dispatch("newProp");
    listened := bus.listenedByAnRtStoreContainer;
    deliveries := bus.dispatcher.delivered;
  }

  /** The observer check refuses only beyond two observers: a container may
      listen and subscribe twice, and only the third `listen` throws "Max
      observer limit of one reached.". */
  method SecondListenerAdmitted() returns (first: bool, second: bool, third: Option<RtError>)
    ensures first && second
    ensures third == Some(MaxObserverLimitReached)
  {
    var bus := new RtCustomEventBus<string>();
    var r1 := bus.Listen(StoreContainer, false);
    first := r1.Success?;
    var id1 := bus.dispatcher.Subscribe();
    var r2 := bus.Listen(StoreContainer, false);
    second := r2.Success?;
    var id2 := bus.dispatcher.Subscribe();
    var r3 := bus.Listen(StoreContainer, false);
    third := if r3.Failure? then Some(r3.error) else None;
  }
}
