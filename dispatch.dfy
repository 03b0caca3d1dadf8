/** What `handleEvent` and `on` do to one client, as functions of the
    client's observable state. */
module Dispatch {
  import opened Types

  /** The observable state of a client: the events pushed on its message
      subject, its callback slots and the callbacks it has called. */
  datatype ClientState = ClientState(
    messages: seq<NativeEvent>,
    handlers: map<HandlerEvent, HandlerId>,
    invoked: seq<Invocation>)

  const Initial := ClientState([], map[], [])

  /** The switch of `handleEvent`: a message goes to the subject, a
      connect, error or closed event to its callback if one is set, and
      anything else is ignored. */
  function Handle(s: ClientState, e: NativeEvent): (t: ClientState)
    ensures t.handlers == s.handlers
    ensures e.event == "message" ==> t.messages == s.messages + [e] && t.invoked == s.invoked
    ensures IsHandlerEvent(e.event) ==> t.messages == s.messages
    ensures IsHandlerEvent(e.event) && e.event in s.handlers ==>
              t.invoked == s.invoked + [Invocation(s.handlers[e.event], e)]
    ensures IsHandlerEvent(e.event) && e.event !in s.handlers ==> t.invoked == s.invoked
    ensures e.event != "message" && !IsHandlerEvent(e.event) ==> t == s
  {
    if e.event == "message" then
      s.(messages := s.messages + [e])
    else if IsHandlerEvent(e.event) then
      var kind: HandlerEvent := e.event;
      if kind in s.handlers then s.(invoked := s.invoked + [Invocation(s.handlers[kind], e)])
      else s
    else
      s
  }

  /** `on(kind, callback)`: one slot written, the rest untouched. */
  function Register(s: ClientState, kind: HandlerEvent, cb: HandlerId): (t: ClientState)
    ensures kind in t.handlers && t.handlers[kind] == cb
    ensures t.handlers.Keys == s.handlers.Keys + {kind}
    ensures forall k :: k in s.handlers && k != kind ==> t.handlers[k] == s.handlers[k]
    ensures t.messages == s.messages && t.invoked == s.invoked
  {
    s.(handlers := s.handlers[kind := cb])
  }

  /** The last registration for a kind wins: the next event of that kind
      calls it, exactly once, and nothing else. */
  lemma LastRegistrationWins(s: ClientState, kind: HandlerEvent, first: HandlerId, second: HandlerId, e: NativeEvent)
    requires e.event == kind
    ensures Handle(Register(Register(s, kind, first), kind, second), e).invoked
            == s.invoked + [Invocation(second, e)]
  {
  }

  /** The events of `es`, in order, delivered to one client. */
  function Replay(s: ClientState, es: seq<NativeEvent>): ClientState
    decreases |es|
  {
    if es == [] then s else Replay(Handle(s, es[0]), es[1..])
  }

  /** The message events of `es`, in order. */
  function Messages(es: seq<NativeEvent>): seq<NativeEvent>
    decreases |es|
  {
    if es == [] then []
    else (if es[0].event == "message" then [es[0]] else []) + Messages(es[1..])
  }

  /** The callback calls that `es` causes under fixed slots `hs`, in order. */
  function Calls(hs: map<HandlerEvent, HandlerId>, es: seq<NativeEvent>): seq<Invocation>
    decreases |es|
  {
    if es == [] then []
    else
      var e := es[0];
      (if IsHandlerEvent(e.event) && e.event in hs then [Invocation(hs[e.event], e)] else [])
      + Calls(hs, es[1..])
  }

  /** Delivering events never changes the callback slots. */
  lemma {:induction false} ReplayKeepsHandlers(s: ClientState, es: seq<NativeEvent>)
    ensures Replay(s, es).handlers == s.handlers
    decreases |es|
  {
    if es != [] {
      ReplayKeepsHandlers(Handle(s, es[0]), es[1..]);
    }
  }

  /** The message subject receives exactly the message events, in the
      order they were delivered. */
  lemma {:induction false} ReplayMessages(s: ClientState, es: seq<NativeEvent>)
    ensures Replay(s, es).messages == s.messages + Messages(es)
    decreases |es|
  {
    if es != [] {
      ReplayMessages(Handle(s, es[0]), es[1..]);
      assert s.messages + Messages(es)
          == s.messages + (if es[0].event == "message" then [es[0]] else []) + Messages(es[1..]);
    }
  }

  /** Callbacks are called once per connect, error or closed event whose
      slot is set, in delivery order, and for nothing else. */
  lemma {:induction false} ReplayCalls(s: ClientState, es: seq<NativeEvent>)
    ensures Replay(s, es).invoked == s.invoked + Calls(s.handlers, es)
    decreases |es|
  {
    if es != [] {
      var t := Handle(s, es[0]);
      ReplayCalls(t, es[1..]);
      var e := es[0];
      assert s.invoked + Calls(s.handlers, es)
          == s.invoked + (if IsHandlerEvent(e.event) && e.event in s.handlers then [Invocation(s.handlers[e.event], e)] else [])
             + Calls(s.handlers, es[1..]);
    }
  }
}
