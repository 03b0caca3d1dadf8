/** Whole-system runs of the registry: the behaviours the repository's
    tests promise and the routing and removal rules of the code, each
    proved for one concrete run, and the frame fact that forwarding never
    touches the registry. */
module Scenarios {
  import opened Types
  import opened Bridge
  import opened Clients
  import opened ClientRegistry
  import opened Options

  const TestOptions := ClientOptions("mqtt://localhost:1883", "test-client", None, None, None, None)

  /** Creating a client asks the native module with the derived options,
      then lists exactly one handle with the returned reference. */
  method CreateOneClient() returns (trace: seq<NativeCall>, listed: seq<Client>)
    ensures trace == [NativeCall.CreateClient(NativeOptions("tcp", "localhost", 1883, "", "", false, "test-client", None))]
    ensures |listed| == 1 && listed[0].ref == "client-ref-1"
  {
    var native := new NativeModule();
    var reg := new Registry(native);
    var created := reg.CreateClient(TestOptions, Some("localhost"), Some(1883), Some("client-ref-1"));
    trace, listed := native.trace, reg.clients;
  }

  /** A rejected creation leaves the list empty and no subscription held. */
  method RejectedCreation() returns (result: Result<Client>, listed: seq<Client>, subscribed: bool)
    ensures result == Failure(TransportError) && listed == [] && !subscribed
  {
    var native := new NativeModule();
    var reg := new Registry(native);
    result := reg.CreateClient(TestOptions, Some("localhost"), Some(1883), None);
    listed, subscribed := reg.clients, reg.subscribed;
  }

  /** Two clients, "c1" and "c2", each with a connect callback: a connect
      event for "c1" calls A's callback once and B's not at all. */
  method ConnectReachesOnlyItsClient() returns (a: Client, b: Client)
    ensures a.invoked == [Invocation(1, NativeEvent("c1", "connect", None))]
    ensures b.invoked == [] && a.messages == [] && b.messages == []
  {
    var native := new NativeModule();
    var reg := new Registry(native);
    a := reg.Register("c1", None);
    b := reg.Register("c2", None);
    a.On("connect", 1);
    b.On("connect", 2);
    reg.Deliver(NativeEvent("c1", "connect", None));
  }

  /** A client created through `createClient` receives a message event
      on its message subject and calls nothing. */
  method MessageReachesSubject() returns (c: Client)
    ensures c.messages == [NativeEvent("client-ref-1", "message", Some(Text("hello")))]
    ensures c.invoked == []
  {
    var native := new NativeModule();
    var reg := new Registry(native);
    var created := reg.CreateClient(TestOptions, Some("localhost"), Some(1883), Some("client-ref-1"));
    c := created.value;
    c.On("connect", 7);
    reg.Deliver(NativeEvent("client-ref-1", "message", Some(Text("hello"))));
  }

  /** Registering a second connect callback replaces the first. */
  method SecondRegistrationReplacesFirst() returns (c: Client)
    ensures c.invoked == [Invocation(2, NativeEvent("c1", "connect", None))]
  {
    var native := new NativeModule();
    var reg := new Registry(native);
    c := reg.Register("c1", None);
    c.On("connect", 1);
    c.On("connect", 2);
    reg.Deliver(NativeEvent("c1", "connect", None));
  }

  /** Two handles with the same reference: only the first listed one
      receives its events. */
  method DuplicateRefRoutesToFirst() returns (first: Client, second: Client)
    ensures first.messages == [NativeEvent("dup", "message", None)]
    ensures second.messages == []
  {
    var native := new NativeModule();
    var reg := new Registry(native);
    first := reg.Register("dup", None);
    second := reg.Register("dup", None);
    reg.Deliver(NativeEvent("dup", "message", None));
  }

  /** An event for a reference nobody holds changes no client. */
  method UnknownRefDropped() returns (c: Client)
    ensures c.messages == [] && c.invoked == [] && c.handlers == map["error" := 3]
  {
    var native := new NativeModule();
    var reg := new Registry(native);
    c := reg.Register("c1", None);
    c.On("error", 3);
    reg.Deliver(NativeEvent("c9", "error", None));
    reg.Deliver(NativeEvent("c9", "message", None));
  }

  /** `reconnect` reaches the native module on Android only. */
  method ReconnectOnlyOnAndroid() returns (onAndroid: seq<NativeCall>, onIos: seq<NativeCall>)
    ensures onAndroid == [NativeCall.Reconnect("client-ref-1")]
    ensures onIos == []
  {
    var native := new NativeModule();
    var reg := new Registry(native);
    var c := reg.Register("client-ref-1", None);
    c.Reconnect("android");
    onAndroid := native.trace;
    c.Reconnect("ios");
    onIos := native.trace[|onAndroid|..];
  }

  /** Removing the last client drops the subscription; the next client
      subscribes again, once. */
  method ResubscribeOnce() returns (afterFirst: nat, removed: Result<()>, afterRemove: nat, afterSecond: nat)
    ensures afterFirst == 1 && removed == Success(()) && afterRemove == 0 && afterSecond == 1
  {
    var native := new NativeModule();
    var reg := new Registry(native);
    var a := reg.Register("c1", None);
    afterFirst := reg.listeners;
    removed := reg.RemoveClient("c1");
    afterRemove := reg.listeners;
    var b := reg.Register("c2", None);
    afterSecond := reg.listeners;
  }

  /** As written, removing the last client's reference a second time
      throws before the native module is told. */
  method RemoveTwiceThrows() returns (first: Result<()>, second: Result<()>, trace: seq<NativeCall>)
    ensures first == Success(()) && second == Failure(NullSubscription)
    ensures trace == [NativeCall.RemoveClient("c1")]
  {
    var native := new NativeModule();
    var reg := new Registry(native);
    var c := reg.Register("c1", None);
    first := reg.RemoveClient("c1");
    second := reg.RemoveClient("c1");
    trace := native.trace;
  }

  /** With the null check, a repeated removal is a no-op on the list and
      the native module is told both times. */
  method RemoveTwiceReleasesTwice() returns (listed: seq<Client>, trace: seq<NativeCall>)
    ensures listed == []
    ensures trace == [NativeCall.RemoveClient("c1"), NativeCall.RemoveClient("c1")]
  {
    var native := new NativeModule();
    var reg := new Registry(native);
    var c := reg.Register("c1", None);
    reg.RemoveClientChecked("c1");
    reg.RemoveClientChecked("c1");
    listed, trace := reg.clients, native.trace;
  }

  /** Every forwarding call, `disconnectAll` and a handle's own `remove()`
      leave the list and the subscription as they were: the registry's
      invariant survives them, and the removed handle stays listed. */
  method ForwardingKeepsRegistry(reg: Registry, c: Client, topic: string, message: Payload, os: string)
    requires reg.Valid() && c in reg.clients
    modifies reg.native
    ensures reg.Valid() && c in reg.clients
    ensures reg.clients == old(reg.clients) && reg.subscribed == old(reg.subscribed)
    ensures reg.listeners == old(reg.listeners)
    ensures c.State() == old(c.State())
    ensures reg.native.trace == old(reg.native.trace)
              + [NativeCall.Connect(c.ref), NativeCall.Subscribe(c.ref, topic, DefaultQos),
                 NativeCall.Publish(c.ref, topic, message, DefaultQos, false), NativeCall.Unsubscribe(c.ref, topic),
                 NativeCall.IsConnected(c.ref), NativeCall.IsSubscribed(c.ref, topic)]
              + (if os == "android" then [NativeCall.Reconnect(c.ref)] else [])
              + [NativeCall.Disconnect(c.ref), NativeCall.RemoveClient(c.ref), NativeCall.DisconnectAll]
  {
    c.Connect();
    c.Subscribe(topic, None);
    c.Publish(topic, message, None, None);
    c.Unsubscribe(topic);
    c.IsConnected();
    c.IsSubscribed(topic);
    c.Reconnect(os);
    c.Disconnect();
    c.Remove();
    reg.DisconnectAll();
  }
}
