/** The native module as the bridge sees it: every call it receives,
    in order. */
module Bridge {
  import opened Types
  import Options

  datatype NativeCall =
    | CreateClient(options: Options.NativeOptions)
    | Subscribe(ref: ClientRef, topic: string, qos: Qos)
    | Unsubscribe(ref: ClientRef, topic: string)
    | Publish(ref: ClientRef, topic: string, message: Payload, qos: Qos, retain: bool)
    | Connect(ref: ClientRef)
    | Disconnect(ref: ClientRef)
    | Reconnect(ref: ClientRef)
    | IsConnected(ref: ClientRef)
    | IsSubscribed(ref: ClientRef, topic: string)
    | RemoveClient(ref: ClientRef)
    | DisconnectAll

  /** The single native module object; `trace` only grows. */
  class NativeModule {
    var trace: seq<NativeCall>

    constructor ()
      ensures trace == []
    {
      trace := [];
    }
  }
}
