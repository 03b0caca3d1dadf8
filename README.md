# react-native-awesome-mqtt: client registry and event dispatch

A model of the JavaScript side of the React Native MQTT bridge
(`src/index.tsx`). The MQTT protocol itself lives in native libraries; what
this layer does, and what is modelled, is:

- deriving the options record handed to the native `createClient` from the
  caller's options and the host and port parsed from the URI (`Options`);
- the process-wide registry: the ordered list `allClients`, the single
  subscription to the native `mqtt_events` channel, `createClient`,
  `removeClient` and `disconnectAll` (`ClientRegistry.Registry`);
- the channel listener, which hands each event to the first listed client
  with the event's reference, and each client's `handleEvent` switch and
  `on` callback slots (`ClientRegistry.Registry.Deliver`,
  `Clients.Client`, specified by the functions of `Dispatch`);
- the forwarding methods of a client, each of which makes one native call
  tagged with the client's reference (`Clients.Client`).

The native module is a `Bridge.NativeModule` object whose `trace` records
every call it receives, in order. The rxjs `message` subject is the sequence
of events pushed on it; a callback is an opaque `HandlerId`, and each call of
one is recorded with its event in the client's `invoked` log. The registry's
static fields are the fields of one `Registry` object. Besides the
subscription flag, the registry counts the listeners it has added to the
channel (`listeners`). Each listener would deliver every event once, so
"there is never a second subscription" means `listeners <= 1`.

`Registry.Valid()` is the registry's invariant. It says four things: the
subscription is held exactly when the list is non-empty; there is one
listener when it is held and none otherwise; no handle is listed twice; and
every handle talks to the registry's native module. Every registry method
preserves it. The client methods modify only the client or the native
module, so they cannot break it either (`Scenarios.ForwardingKeepsRegistry`).
References are not assumed to be unique: both lookups take the first match,
and `Lookup` proves what that means when two handles share a reference.

The TypeScript constructor builds a handle and registers it in one step.
Here `Clients.Client.constructor` builds the handle and
`ClientRegistry.Registry.Register` performs the registering half (append,
then subscribe if no subscription is held).

Three facts about the code shape the model:
- the code never checks references for uniqueness;
- `protocol` is always `"tcp"`, whatever the URI's scheme;
- `removeClient` throws when the list is already empty (see Findings).

## Model

| member | source | states |
|---|---|---|
| `Options.Derive` | src/index.tsx:155-167 | protocol is always "tcp"; user and pass default to "" when absent; auth is true iff user or pass is non-empty; clientId and tls pass through; host is "localhost" and port 1883 only when the parsed value is missing (an empty host name is kept) |
| `Options.EmptyCredentialsNoAuth` | src/index.tsx:162-164 | credentials that are given but both empty leave auth false |
| `Options.LocalhostOptions` | src/__tests__/index.test.tsx:53-67 | options for mqtt://localhost:1883 with only a client id give tcp, localhost, 1883, empty credentials, auth false, tls undefined |
| `Dispatch.Handle` | src/index.tsx:210-232 | a "message" event is appended to the message stream and calls nothing; connect, error and closed call the registered callback for that kind once, with the event, if one is set, and never touch the stream; any other kind changes nothing; callback slots never change |
| `Dispatch.Register` | src/index.tsx:114-122 | `on(kind, cb)` sets the slot for kind to cb and leaves every other slot, the stream and the call log unchanged |
| `Dispatch.LastRegistrationWins` | src/index.tsx:121 | after two registrations for one kind, the next event of that kind calls the second callback exactly once and nothing else |
| `Dispatch.ReplayKeepsHandlers` | src/index.tsx:214-231 | delivering any sequence of events leaves the callback slots unchanged |
| `Dispatch.ReplayMessages` | src/index.tsx:214-217 | after a sequence of events the message stream has gained exactly the message events, in delivery order |
| `Dispatch.ReplayCalls` | src/index.tsx:219-227 | after a sequence of events the call log has gained one call per connect, error or closed event whose slot is set, in delivery order, and nothing else |
| `Clients.Client.constructor` | src/index.tsx:188-190 | a new handle carries its reference, debug flag and native module, with an empty message stream, no callbacks and no calls (the field initialisers at src/index.tsx lines 145-147) |
| `Clients.Client.On` | src/index.tsx:114-122 | the client's new state is `Dispatch.Register` of its old state |
| `Clients.Client.HandleEvent` | src/index.tsx:210-232 | the client's new state is `Dispatch.Handle` of its old state and the event |
| `Clients.Client.Publish` | src/index.tsx:241-251 | exactly one native publish call with the client's reference, topic and message; QoS defaults to 2, retain to false |
| `Clients.Client.Subscribe` | src/index.tsx:258-263 | exactly one native subscribe call with the client's reference and topic; QoS defaults to 2 |
| `Clients.Client.Unsubscribe` | src/index.tsx:269-271 | exactly one native unsubscribe call with the client's reference and topic |
| `Clients.Client.Disconnect` | src/index.tsx:276-278 | exactly one native disconnect call with the client's reference |
| `Clients.Client.Connect` | src/index.tsx:283-285 | exactly one native connect call with the client's reference |
| `Clients.Client.IsConnected` | src/index.tsx:290-292 | exactly one native isConnected request with the client's reference |
| `Clients.Client.IsSubscribed` | src/index.tsx:297-299 | exactly one native isSubscribed request with the client's reference and topic |
| `Clients.Client.Reconnect` | src/index.tsx:311-315 | one native reconnect call with the client's reference when the platform is "android", no call otherwise |
| `Clients.Client.Remove` | src/index.tsx:184-186 | exactly one native removeClient call with the client's reference; nothing else changes |
| `Lookup.FindIndex` | src/index.tsx:321-323 | the index of the first client with the reference, or -1 exactly when no client has it |
| `Lookup.Find` | src/index.tsx:197-199 | finds a client iff one is listed with the reference, and then the first such one |
| `Lookup.RemoveFirst` | src/index.tsx:321-326 | with no match the list is unchanged; otherwise exactly the first match is taken out and the others keep their relative order |
| `Lookup.CountAppend` | src/index.tsx:192 | appending a handle adds one to its own reference's count and leaves every other count alone |
| `Lookup.CountRemoveFirst` | src/index.tsx:320-326 | removing by a reference takes away one handle with that reference when one is listed, and no handle with any other reference |
| `Lookup.AppendKeepsRouting` | src/index.tsx:192-199 | a handle appended later never takes events away from an earlier handle with the same reference; it receives them only when its reference was not listed |
| `ClientRegistry.Registry.constructor` | src/index.tsx:129-131 | the registry starts with no clients, no subscription and no listener |
| `ClientRegistry.Registry.Register` | src/index.tsx:188-203 | the new handle is appended at the end, earlier entries unchanged; a missing debug flag defaults to false; a listener is added only if no subscription was held; afterwards the subscription is held and the invariant holds |
| `ClientRegistry.Registry.CreateClient` | src/index.tsx:152-178 | the native createClient call with the derived options comes first; on success one handle with the returned reference is appended and the subscription is held; the new handle has an empty message stream, no callbacks and no calls; on rejection the result is a transport error and the list and subscription are unchanged |
| `ClientRegistry.Registry.Deliver` | src/index.tsx:193-201 | the event is handled by the client `Lookup.Find` gives, the first listed one with its reference; every other client, and every client when none matches, is unchanged |
| `ClientRegistry.Registry.RemoveClient` | src/index.tsx:320-332 | as written: on a non-empty list the first match is removed, the subscription is dropped iff the list becomes empty, and native removeClient is the last call; on an empty list it fails on the null subscription and makes no native call |
| `ClientRegistry.Registry.RemoveClientChecked` | src/index.tsx:320-332 | with the null check: the first match is removed (an unknown reference leaves the list unchanged), the subscription is held iff the list is non-empty, and native removeClient is always the last call |
| `ClientRegistry.Registry.DisconnectAll` | src/index.tsx:304-306 | exactly one native disconnectAll call; the list and the subscription are unchanged |
| `Scenarios.CreateOneClient` | src/__tests__/index.test.tsx:53-71 | creating a client issues one createClient call with the expected options and lists one handle with the returned reference |
| `Scenarios.RejectedCreation` | src/index.tsx:169-171 | a rejected native createClient leaves the list empty and no subscription held |
| `Scenarios.ConnectReachesOnlyItsClient` | src/index.tsx:196-225 | with clients "c1" and "c2", a connect event for "c1" calls only c1's callback, once, with the event |
| `Scenarios.MessageReachesSubject` | src/__tests__/index.test.tsx:140-169 | for a client created through createClient, a message event reaches the client's message stream and calls no callback |
| `Scenarios.SecondRegistrationReplacesFirst` | src/index.tsx:121 | after two connect registrations only the second callback fires |
| `Scenarios.DuplicateRefRoutesToFirst` | src/index.tsx:196-199 | of two handles with one reference, only the first listed receives the event |
| `Scenarios.UnknownRefDropped` | src/index.tsx:196-199 | events for an unlisted reference change no client: its message stream, call log and callback slots stay as they were |
| `Scenarios.ReconnectOnlyOnAndroid` | src/__tests__/index.test.tsx:255-273 | reconnect reaches the native module on android and not on ios |
| `Scenarios.ResubscribeOnce` | src/index.tsx:193-194 | removing the last client with `removeClient` as written succeeds and leaves no listener; the next client adds exactly one |
| `Scenarios.RemoveTwiceThrows` | src/index.tsx:327-331 | as written, removing the last client's reference twice fails the second time, and native removeClient is called only once |
| `Scenarios.RemoveTwiceReleasesTwice` | src/index.tsx:320-332 | with the null check, the second removal is a no-op on the list and native removeClient is called both times |
| `Scenarios.ForwardingKeepsRegistry` | src/index.tsx:184-315 | forwarding calls, disconnectAll and a handle's own remove() leave the list, the subscription and the client's state unchanged and keep the invariant; the removed handle stays listed; the trace gains exactly the forwarded calls |

## Findings

| source | as written | input that shows it | evidently intended | confidence | as-written member | corrected member |
|---|---|---|---|---|---|---|
| src/index.tsx:327-331 | `removeClient` calls `emitterSubscription.remove()` whenever the list is empty, even when the subscription is already null | create one client "c1", then `removeClient("c1")` twice (or `removeClient` on a fresh registry): the second call throws a TypeError, and native `removeClient` is never reached | removing an unknown reference is a no-op on the list and the native module is still told to release it; the subscription is dropped only if held | high, not executed | `ClientRegistry.Registry.RemoveClient` (exhibited by `Scenarios.RemoveTwiceThrows`, and used by `Scenarios.ResubscribeOnce`) | `ClientRegistry.Registry.RemoveClientChecked` (exhibited by `Scenarios.RemoveTwiceReleasesTwice`) |

## Left out

- React Native plumbing is not modelled: `NativeModules`, the `NativeEventEmitter`, `addListener` and `EmitterSubscription.remove`. In their place are the native call trace, the subscription flag and the listener count.
- URI parsing by `url-parse` and the `Number()` conversion of the port are foreign library behaviour. The parsed host name and numeric port are inputs of `Options.Derive`; `None` stands for null or undefined.
- `url-parse` may answer `''` rather than undefined for a missing host or port (unverified: that library is not part of this model). If so, `port ?? 1883` never falls back and `Number('')` gives port 0, so the "localhost"/1883 defaults of `Options.Derive` would not be reached through the real parser.
- Promises are not modelled. The native `createClient` answer is an input: a reference, or `None` for a rejection. The answers of `isConnected` and `isSubscribed` come from the transport, so only the forwarded request is modelled.
- The `console.log` and `console.table` output switched on by `debug` is left out. The flag is stored on the handle and has no other effect.
- Subscribers of the rxjs `message` subject and their notification order are not modelled; only the sequence of events pushed on the subject is kept.
- Callback bodies are not modelled. A callback is an opaque identifier whose calls are logged. What a callback does when called, such as calling `removeClient` or `on` from inside `handleEvent`, is not modelled.
- The `typeof === 'function'` test in `handleEvent` always passes, because `on` stores only callbacks. Writes to the public `eventHandlers` record from outside are not modelled.
- Mutation from outside through the live array returned by the `clients` getter is not modelled. This includes the tests resetting `clients.length` and `emitterSubscription`. The invariant covers only the class's own operations.
- The `clients` and `ref` getters only read a field; they have no separate member.
- `Platform.OS` is a string parameter of `Reconnect`.
- A published `message` (`string | object`) and an event's `message?: any` are abstracted to `Payload`, a string or an object known by identity.
- Native headers and glue are not part of this model: ios/MqttClient.h, ios/AwesomeMqtt.h, android/.../AwesomeMqttPackage.kt. Neither is the example app (example/src/App.tsx).
