/** One client handle: its callback slots, its message subject, and the
    methods that forward a call tagged with its reference to the native
    module. */
module Clients {
  import opened Types
  import opened Bridge
  import Dispatch

  class Client {
    const ref: ClientRef
    const debug: bool
    /** The native module every call is forwarded to. */
    const native: NativeModule
    /** Events pushed on the `message` subject. */
    var messages: seq<NativeEvent>
    /** The `eventHandlers` record: one callback per event kind. */
    var handlers: map<HandlerEvent, HandlerId>
    /** Calls of registered callbacks, in order. */
    var invoked: seq<Invocation>

    function State(): Dispatch.ClientState
      reads this
    {
      Dispatch.ClientState(messages, handlers, invoked)
    }

    /** A fresh handle; putting it on the registry's list is the
        registry's part (`Registry.Register`). */
    constructor (ref: ClientRef, debug: bool, native: NativeModule)
      ensures this.ref == ref && this.debug == debug && this.native == native
      ensures State() == Dispatch.Initial
    {
      this.ref := ref;
      this.debug := debug;
      this.native := native;
      messages, handlers, invoked := [], map[], [];
    }

    method On(kind: HandlerEvent, cb: HandlerId)
      modifies this
      ensures State() == Dispatch.Register(old(State()), kind, cb)
    {
      handlers := handlers[kind := cb];
    }

    method HandleEvent(e: NativeEvent)
      modifies this
      ensures State() == Dispatch.Handle(old(State()), e)
    {
      match e.event
      case "message" =>
        messages := messages + [e];
      case "closed" | "connect" | "error" =>
        var kind: HandlerEvent := e.event;
        if kind in handlers {
          invoked := invoked + [Invocation(handlers[kind], e)];
        }
      case _ =>
    }

    method Publish(topic: string, message: Payload, qos: Option<Qos>, retain: Option<bool>)
      modifies native
      ensures native.trace == old(native.trace)
              + [NativeCall.Publish(ref, topic, message, qos.GetOr(DefaultQos), retain.GetOr(false))]
    {
      native.trace := native.trace + [NativeCall.Publish(ref, topic, message, qos.GetOr(DefaultQos), retain.GetOr(false))];
    }

    method Subscribe(topic: string, qos: Option<Qos>)
      modifies native
      ensures native.trace == old(native.trace) + [NativeCall.Subscribe(ref, topic, qos.GetOr(DefaultQos))]
    {
      native.trace := native.trace + [NativeCall.Subscribe(ref, topic, qos.GetOr(DefaultQos))];
    }

    method Unsubscribe(topic: string)
      modifies native
      ensures native.trace == old(native.trace) + [NativeCall.Unsubscribe(ref, topic)]
    {
      native.trace := native.trace + [NativeCall.Unsubscribe(ref, topic)];
    }

    method Disconnect()
      modifies native
      ensures native.trace == old(native.trace) + [NativeCall.Disconnect(ref)]
    {
      native.trace := native.trace + [NativeCall.Disconnect(ref)];
    }

    method Connect()
      modifies native
      ensures native.trace == old(native.trace) + [NativeCall.Connect(ref)]
    {
      native.trace := native.trace + [NativeCall.Connect(ref)];
    }

    /** The answer arrives later from the native side; only the request
        is modelled. */
    method IsConnected()
      modifies native
      ensures native.trace == old(native.trace) + [NativeCall.IsConnected(ref)]
    {
      native.trace := native.trace + [NativeCall.IsConnected(ref)];
    }

    method IsSubscribed(topic: string)
      modifies native
      ensures native.trace == old(native.trace) + [NativeCall.IsSubscribed(ref, topic)]
    {
      native.trace := native.trace + [NativeCall.IsSubscribed(ref, topic)];
    }

    /** Forwarded only on Android; `os` is the platform name. */
    method Reconnect(os: string)
      modifies native
      ensures os == "android" ==> native.trace == old(native.trace) + [NativeCall.Reconnect(ref)]
      ensures os != "android" ==> native.trace == old(native.trace)
    {
      if os == "android" {
        native.trace := native.trace + [NativeCall.Reconnect(ref)];
      }
    }

    /** Releases the native client only; the handle stays listed. */
    method Remove()
      modifies native
      ensures native.trace == old(native.trace) + [NativeCall.RemoveClient(ref)]
    {
      native.trace := native.trace + [NativeCall.RemoveClient(ref)];
    }
  }
}
