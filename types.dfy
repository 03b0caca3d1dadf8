/** Values shared by the whole model: optional values, client references,
    native events as the bridge delivers them, QoS levels and callbacks. */
module Types {

  datatype Option<+T> = None | Some(value: T) {
    /** The wrapped value, or `default` when absent (a JavaScript default
        parameter or `??` applied to an undefined value). */
    function GetOr(default: T): T {
      match this
      case Some(v) => v
      case None => default
    }
  }

  /** Opaque reference issued by the native module for every client. */
  type ClientRef = string

  /** A published or received payload: a string, or an object the model
      knows only by identity. */
  datatype Payload = Text(text: string) | Object(identity: nat)

  /** An event on the native `mqtt_events` channel. `event` is a plain
      string: the native side may emit kinds the bridge does not know. */
  datatype NativeEvent = NativeEvent(clientRef: ClientRef, event: string, message: Option<Payload>)

  predicate IsHandlerEvent(s: string) {
    s == "connect" || s == "error" || s == "closed"
  }

  /** The event kinds a callback can be registered for. */
  type HandlerEvent = s: string | IsHandlerEvent(s) witness "connect"

  /** MQTT quality-of-service level. */
  type Qos = q: int | 0 <= q <= 2

  /** The QoS used when a caller passes none ("exactly once"). */
  const DefaultQos: Qos := 2

  /** A registered callback, known only by identity. */
  type HandlerId = nat

  /** One call of a registered callback with the event it received. */
  datatype Invocation = Invocation(handler: HandlerId, event: NativeEvent)

  /** Why an operation of the registry failed. */
  datatype Error =
    | TransportError     // the native module rejected createClient
    | NullSubscription   // emitterSubscription.remove() on a null subscription

  datatype Result<+T> = Success(value: T) | Failure(error: Error)
}
