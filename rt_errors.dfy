/** The runtime type checks (`instanceof`) and the errors the state layer
    throws when its wiring rules are broken. */
module RtErrors {

  /** What `instanceof` can tell about the object passed as caller, listener
      or container. */
  datatype Kind = StoreContainer | StoreSourceEngine | OtherObject

  /** The errors thrown by stores, engines and event buses. */
  datatype RtError =
    | StateSourceAlreadyBound
    | StoreNotInitializedByEngine
    | EngineWithoutContainer
    | BusListenerNotContainer
    | MaxObserverLimitReached

  /** The text of the `Error` thrown for each wiring error. */
  function Message(e: RtError): (msg: string)
    ensures |msg| > 0
  {
    match e
    case StateSourceAlreadyBound => "State source already bound."
    case StoreNotInitializedByEngine => "Stores must be initialized by RtStoreSourceEngines"
    case EngineWithoutContainer => "You must construct an RtStoreSourceEngine with an instance of RtStoreContainer."
    case BusListenerNotContainer => "Event buses must be listened to by RtStoreContainers"
    case MaxObserverLimitReached => "Max observer limit of one reached."
  }

  /** Every error carries its own message, so a caller can tell them apart. */
  lemma MessagesDistinct(a: RtError, b: RtError)
    ensures Message(a) == Message(b) ==> a == b
  {
  }
}
