/** What both event buses share: the Angular EventEmitter they dispatch
    through, and the guard `listen` applies before handing it out. */
module EventBusCore {
  import opened Wrappers
  import opened RtErrors

  /** One event handed to one observer. */
  datatype Delivery<T> = Delivery(observer: nat, event: T)

  /** Emitting to the given observers: each receives the event once, in
      subscription order. Nothing is buffered, so with no observer nothing
      happens. */
  function Fanout<T>(observers: seq<nat>, event: T): (ds: seq<Delivery<T>>)
    ensures |ds| == |observers|
    ensures forall i :: 0 <= i < |ds| ==> ds[i] == Delivery(observers[i], event)
  {
    if observers == [] then []
    else [Delivery(observers[0], event)] + Fanout(observers[1..], event)
  }

  /** The checks of `listen`, for a listener of the given kind and an emitter
      with the given number of observers: the kind is checked first, and the
      observer check refuses only when there are already MORE than one. */
  function ListenOutcome(listener: Kind, observerCount: nat): (r: Outcome<RtError>)
    ensures r.Pass? <==> listener == StoreContainer && observerCount <= 1
    ensures listener != StoreContainer ==> r == Fail(BusListenerNotContainer)
    ensures listener == StoreContainer && observerCount > 1 ==> r == Fail(MaxObserverLimitReached)
  {
    if listener != StoreContainer then Fail(BusListenerNotContainer)
    else if observerCount > 1 then Fail(MaxObserverLimitReached)
    else Pass
  }

  /** An EventEmitter: the observers currently subscribed (by id) and the
      trace of every delivery made so far. */
  class Emitter<T> {
    var observers: seq<nat>
    var nextObserver: nat
    var delivered: seq<Delivery<T>>

    /** Observer ids are handed out once each. */
    ghost predicate Valid()
      reads this
    {
      forall i :: 0 <= i < |observers| ==> observers[i] < nextObserver
    }

    constructor()
      ensures Valid()
      ensures observers == [] && nextObserver == 0 && delivered == []
    {
      observers := [];
      nextObserver := 0;
      delivered := [];
    }

    /** `emit(event)` */
    method Emit(event: T)
      modifies this`delivered
      ensures delivered == old(delivered) + Fanout(observers, event)
    {
      delivered := delivered + Fanout(observers, event);
    }

    /** `subscribe(...)` on the emitter's observable: one more observer, with
        a fresh id. */
    method Subscribe() returns (id: nat)
      requires Valid()
      modifies this`observers, this`nextObserver
      ensures Valid()
      ensures id == old(nextObserver) && id !in old(observers)
      ensures observers == old(observers) + [id]
      ensures nextObserver == old(nextObserver) + 1
    {
      id := nextObserver;
      observers := observers + [id];
      nextObserver := nextObserver + 1;
    }
  }
}
