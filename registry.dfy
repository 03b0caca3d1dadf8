/** The process-wide registry: the ordered list of clients, the one
    subscription to the native event channel, `createClient`,
    `removeClient`, `disconnectAll` and the channel's listener. */
module ClientRegistry {
  import opened Types
  import opened Bridge
  import opened Clients
  import opened Lookup
  import Options
  import Dispatch

  class Registry {
    /** `allClients`, in creation order. */
    var clients: seq<Client>
    /** Whether `emitterSubscription` is held (non-null). */
    var subscribed: bool
    /** How many listeners this registry has on the `mqtt_events` channel;
        each one would deliver every event once. */
    var listeners: nat
    const native: NativeModule

    /** The subscription is held exactly when some client is listed, and
        there is never more than one listener. */
    ghost predicate Valid()
      reads this
    {
      && (subscribed <==> clients != [])
      && listeners == (if subscribed then 1 else 0)
      && (forall i, j :: 0 <= i < j < |clients| ==> clients[i] != clients[j])
      && (forall c :: c in clients ==> c.native == native)
    }

    constructor (native: NativeModule)
      ensures Valid() && this.native == native
      ensures clients == [] && !subscribed && listeners == 0
    {
      this.native := native;
      clients, subscribed, listeners := [], false, 0;
    }

    /** The constructor of a handle: it is appended to the list, and the
        channel is subscribed to unless a subscription is already held. */
    method Register(ref: ClientRef, debug: Option<bool>) returns (c: Client)
      requires Valid()
      modifies this
      ensures Valid() && fresh(c)
      ensures c.ref == ref && c.debug == debug.GetOr(false) && c.native == native
      ensures c.State() == Dispatch.Initial
      ensures clients == old(clients) + [c]
      ensures subscribed
      ensures listeners == if old(subscribed) then old(listeners) else old(listeners) + 1
    {
      c := new Client(ref, debug.GetOr(false), native);
      clients := clients + [c];
      if !subscribed {
        subscribed := true;
        listeners := listeners + 1;
      }
    }

    /** `createClient`: the native module is asked for a reference first;
        `answer` is what it resolves with (`None` when it rejects). */
    method CreateClient(options: Options.ClientOptions, hostname: Option<string>, port: Option<int>,
                        answer: Option<ClientRef>) returns (result: Result<Client>)
      requires Valid()
      modifies this, native
      ensures Valid()
      ensures native.trace == old(native.trace) + [NativeCall.CreateClient(Options.Derive(options, hostname, port))]
      ensures answer.None? ==> result == Failure(TransportError)
      ensures answer.None? ==> clients == old(clients) && subscribed == old(subscribed) && listeners == old(listeners)
      ensures answer.Some? ==> result.Success? && fresh(result.value)
      ensures answer.Some? ==> result.value.ref == answer.value && result.value.debug == options.debug.GetOr(false)
      ensures answer.Some? ==> result.value.native == native && result.value.State() == Dispatch.Initial
      ensures answer.Some? ==> clients == old(clients) + [result.value] && subscribed && listeners == 1
    {
      var nativeOptions := Options.Derive(options, hostname, port);
      native.trace := native.trace + [NativeCall.CreateClient(nativeOptions)];
      if answer.None? {
        return Failure(TransportError);
      }
      var c := Register(answer.value, options.debug);
      result := Success(c);
    }

    /** The listener on the native channel: the event goes to the first
        listed client with its reference, and to no one if none matches. */
    method Deliver(e: NativeEvent)
      requires Valid()
      modifies clients
      ensures var found := Find(clients, e.clientRef);
              found.Some? ==> found.value.State() == Dispatch.Handle(old(found.value.State()), e)
      ensures var found := Find(clients, e.clientRef);
              forall c :: c in clients && found != Some(c) ==> c.State() == old(c.State())
    {
      if subscribed {
        match Find(clients, e.clientRef)
        case Some(c) => c.HandleEvent(e);
        case None =>
      }
    }

    /** `removeClient` as written: when the list is already empty the
        subscription is null and `remove()` on it throws, so the native
        module is never told. */
    method RemoveClient(r: ClientRef) returns (outcome: Result<()>)
      requires Valid()
      modifies this, native
      ensures Valid()
      ensures old(clients) == [] ==> outcome == Failure(NullSubscription)
      ensures old(clients) == [] ==> clients == [] && !subscribed && listeners == 0 && native.trace == old(native.trace)
      ensures old(clients) != [] ==> outcome == Success(())
      ensures old(clients) != [] ==> clients == RemoveFirst(old(clients), r)
      ensures old(clients) != [] ==> subscribed == (clients != [])
      ensures old(clients) != [] ==> native.trace == old(native.trace) + [NativeCall.RemoveClient(r)]
    {
      var index := FindIndex(clients, r);
      if index >= 0 {
        clients := clients[..index] + clients[index + 1..];
      }
      if |clients| == 0 {
        if !subscribed {
          return Failure(NullSubscription);
        }
        subscribed, listeners := false, listeners - 1;
      }
      native.trace := native.trace + [NativeCall.RemoveClient(r)];
      outcome := Success(());
    }

    /** `removeClient` with the null check it evidently needs: removing an
        unknown reference is a no-op on the list, and the native module is
        always told. */
    method RemoveClientChecked(r: ClientRef)
      requires Valid()
      modifies this, native
      ensures Valid()
      ensures clients == RemoveFirst(old(clients), r)
      ensures subscribed == (clients != [])
      ensures native.trace == old(native.trace) + [NativeCall.RemoveClient(r)]
    {
      var index := FindIndex(clients, r);
      if index >= 0 {
        clients := clients[..index] + clients[index + 1..];
      }
      if |clients| == 0 && subscribed {
        subscribed, listeners := false, listeners - 1;
      }
      native.trace := native.trace + [NativeCall.RemoveClient(r)];
    }

    method DisconnectAll()
      modifies native
      ensures native.trace == old(native.trace) + [NativeCall.DisconnectAll]
    {
      native.trace := native.trace + [NativeCall.DisconnectAll];
    }
  }
}
