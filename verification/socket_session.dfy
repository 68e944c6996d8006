/**
 The WebSocket session wrapper of lib/socket.ts as a pure state machine.

 The socket.io transport is abstracted away: its "connect" and "disconnect"
 notifications and every other inbound event are inputs, and so is the firing of
 a 2000 ms reconnect timer. Calls into the transport (`io(...)`, `emit`) become
 changes to the session record: `handlesCreated` counts the sockets `io(...)`
 opened, `sent` logs what `emit` forwarded, and `invoked` logs every callback
 invocation together with its payload.
 */
module SocketSession {
  import opened CallbackRegistry

  /**
   `maxReconnectAttempts`: no reconnect timer is scheduled at or above it. Each
   timer waits 2000 ms; the model has no clock and only keeps timers in order.
   */
  const MaxReconnectAttempts: nat := 5

  /** An opaque event payload; `connect` callbacks receive `null`. */
  datatype Payload = Null | Data(json: string)

  /** A message forwarded to the transport by `emit`. */
  datatype Message = Message(event: string, payload: Payload)

  /** One call `cb(data)` made while dispatching an event. */
  datatype Invocation = Invocation(callback: CallbackId, payload: Payload)

  /**
   The fields of `WebSocketService`: `handle` is whether `socketRef` is set,
   `pendingTimers` counts reconnect timers scheduled but not yet fired.
   */
  datatype Session = Session(
    handle: bool,
    connected: bool,
    attempts: nat,
    pendingTimers: nat,
    callbacks: Registry,
    handlesCreated: nat,
    sent: seq<Message>,
    invoked: seq<Invocation>)

  /** The state right after construction. */
  const Initial: Session := Session(false, false, 0, 0, map[], 0, [], [])

  /** What drives the session: the application's calls, the transport's notifications, the timer. */
  datatype Input =
    | CallConnect
    | CallDisconnect
    | CallEmit(event: string, payload: Payload)
    | CallAddCallbacks(event: string, cb: CallbackId)
    | CallRemoveCallbacks(event: string, cb: CallbackId)
    | TransportConnect
    | TransportDisconnect
    | TransportEvent(event: string, payload: Payload)
    | TimerFires

  /** Only the invocation log may differ between `s` and `r`. */
  predicate OnlyInvokedChanges(s: Session, r: Session)
  {
    r.(invoked := s.invoked) == s
  }

  /** `r` extends the invocation log of `s` with one call per entry of `cbs`, in order. */
  predicate InvokedInOrder(s: Session, r: Session, cbs: seq<CallbackId>, payload: Payload)
  {
    && |r.invoked| == |s.invoked| + |cbs|
    && r.invoked[..|s.invoked|] == s.invoked
    && forall i :: 0 <= i < |cbs| ==> r.invoked[|s.invoked| + i] == Invocation(cbs[i], payload)
  }

  /** The calls `forEach(cb => cb(data))` makes over `cbs`. */
  function Invocations(cbs: seq<CallbackId>, payload: Payload): (r: seq<Invocation>)
    ensures |r| == |cbs|
    ensures forall i :: 0 <= i < |cbs| ==> r[i] == Invocation(cbs[i], payload)
  {
    if cbs == [] then [] else [Invocation(cbs[0], payload)] + Invocations(cbs[1..], payload)
  }

  /** `executeCallback(event, data)`: call every callback registered under exactly `event`. */
  function Dispatch(s: Session, event: string, payload: Payload): (r: Session)
    ensures OnlyInvokedChanges(s, r)
    ensures InvokedInOrder(s, r, Listeners(s.callbacks, event), payload)
    ensures event !in s.callbacks ==> r == s
  {
    s.(invoked := s.invoked + Invocations(Listeners(s.callbacks, event), payload))
  }

  /** `connect()`: open a socket unless one is already held. */
  function Connect(s: Session): (r: Session)
    ensures r.handle
    ensures s.handle ==> r == s
    ensures !s.handle ==> r.handlesCreated == s.handlesCreated + 1
    ensures r.(handle := s.handle, handlesCreated := s.handlesCreated) == s
  {
    if s.handle then s
    else s.(handle := true, handlesCreated := s.handlesCreated + 1)
  }

  /**
   `disconnect()`: close and forget the socket if one is held. Closing a
   connected socket makes socket.io run the wrapper's "disconnect" handler
   synchronously, before `socketRef` is cleared, so that handler's reconnect
   timer is scheduled here too.
   */
  function Disconnect(s: Session): (r: Session)
    ensures !r.handle
    ensures s.handle ==> !r.connected
    ensures Consistent(s) ==> Consistent(r) && !r.connected
    ensures !s.handle ==> r == s
    ensures r.pendingTimers ==
      s.pendingTimers + (if s.handle && s.connected && s.attempts < MaxReconnectAttempts then 1 else 0)
    ensures r.(handle := s.handle, connected := s.connected, pendingTimers := s.pendingTimers) == s
  {
    if !s.handle then s
    else
      var closed := if s.connected then OnTransportDisconnect(s) else s;
      closed.(handle := false, connected := false)
  }

  /** `emit(event, data)`: forward to the transport only while a socket is held and connected. */
  function Emit(s: Session, event: string, payload: Payload): (r: Session)
    ensures s.handle && s.connected ==> r.sent == s.sent + [Message(event, payload)]
    ensures !(s.handle && s.connected) ==> r == s
    ensures r.(sent := s.sent) == s
  {
    if s.handle && s.connected then s.(sent := s.sent + [Message(event, payload)]) else s
  }

  /** `addCallbacks(event, cb)`. */
  function AddCallbacks(s: Session, event: string, cb: CallbackId): (r: Session)
    ensures Listeners(r.callbacks, event) == Listeners(s.callbacks, event) + [cb]
    ensures forall e :: e != event ==> Listeners(r.callbacks, e) == Listeners(s.callbacks, e)
    ensures r.(callbacks := s.callbacks) == s
  {
    s.(callbacks := Add(s.callbacks, event, cb))
  }

  /** `removeCallbacks(event, cb)`. */
  function RemoveCallbacks(s: Session, event: string, cb: CallbackId): (r: Session)
    ensures cb !in Listeners(r.callbacks, event)
    ensures Listeners(r.callbacks, event) == Without(Listeners(s.callbacks, event), cb)
    ensures IsSubsequence(Listeners(r.callbacks, event), Listeners(s.callbacks, event))
    ensures forall e :: e != event ==> Listeners(r.callbacks, e) == Listeners(s.callbacks, e)
    ensures cb !in Listeners(s.callbacks, event) ==> r == s
    ensures r.(callbacks := s.callbacks) == s
  {
    WithoutIsSubsequence(Listeners(s.callbacks, event), cb);
    var r := s.(callbacks := Remove(s.callbacks, event, cb));
    if cb in Listeners(s.callbacks, event) then r
    else RemoveAbsentIsNoOp(s.callbacks, event, cb); r
  }

  /** The socket's "connect" handler: mark connected, reset the counter, run the `connect` callbacks with `null`. */
  function OnTransportConnect(s: Session): (r: Session)
    ensures !s.handle ==> r == s
    ensures s.handle ==> r.connected && r.attempts == 0
    ensures s.handle ==> InvokedInOrder(s, r, Listeners(s.callbacks, "connect"), Null)
    ensures s.handle ==> r.(connected := s.connected, attempts := s.attempts, invoked := s.invoked) == s
  {
    if s.handle then Dispatch(s.(connected := true, attempts := 0), "connect", Null) else s
  }

  /** The socket's "disconnect" handler: mark disconnected and schedule a reconnect below the ceiling. */
  function OnTransportDisconnect(s: Session): (r: Session)
    ensures !s.handle ==> r == s
    ensures s.handle ==> !r.connected
    ensures s.handle ==> r.pendingTimers == s.pendingTimers + (if s.attempts < MaxReconnectAttempts then 1 else 0)
    ensures s.handle ==> r.(connected := s.connected, pendingTimers := s.pendingTimers) == s
  {
    if !s.handle then s
    else
      var down := s.(connected := false);
      if s.attempts < MaxReconnectAttempts then down.(pendingTimers := s.pendingTimers + 1) else down
  }

  /** The socket's `onAny` handler: dispatch under the wire event name unchanged. */
  function OnTransportEvent(s: Session, event: string, payload: Payload): (r: Session)
    ensures OnlyInvokedChanges(s, r)
    ensures s.handle ==> InvokedInOrder(s, r, Listeners(s.callbacks, event), payload)
    ensures !s.handle ==> r == s
  {
    if s.handle then Dispatch(s, event, payload) else s
  }

  /** A pending reconnect timer fires: increment the counter, then `connect()`. */
  function OnTimer(s: Session): (r: Session)
    ensures s.pendingTimers == 0 ==> r == s
    ensures s.pendingTimers > 0 ==> r.attempts == s.attempts + 1 && r.pendingTimers == s.pendingTimers - 1 && r.handle
    ensures s.pendingTimers > 0 && s.handle ==>
      r == s.(attempts := s.attempts + 1, pendingTimers := s.pendingTimers - 1)
    ensures s.pendingTimers > 0 && !s.handle ==>
      r == s.(handle := true, attempts := s.attempts + 1, pendingTimers := s.pendingTimers - 1,
              handlesCreated := s.handlesCreated + 1)
  {
    if s.pendingTimers == 0 then s
    else Connect(s.(attempts := s.attempts + 1, pendingTimers := s.pendingTimers - 1))
  }

  /** One input applied to the session. */
  function Step(s: Session, input: Input): Session
  {
    match input
    case CallConnect => Connect(s)
    case CallDisconnect => Disconnect(s)
    case CallEmit(e, d) => Emit(s, e, d)
    case CallAddCallbacks(e, cb) => AddCallbacks(s, e, cb)
    case CallRemoveCallbacks(e, cb) => RemoveCallbacks(s, e, cb)
    case TransportConnect => OnTransportConnect(s)
    case TransportDisconnect => OnTransportDisconnect(s)
    case TransportEvent(e, d) => OnTransportEvent(s, e, d)
    case TimerFires => OnTimer(s)
  }

  /** A sequence of inputs applied in order. */
  function Run(s: Session, trace: seq<Input>): Session
    decreases |trace|
  {
    if trace == [] then s else Run(Step(s, trace[0]), trace[1..])
  }

  /** What every reachable session satisfies: no connection without a socket, no socket never opened. */
  predicate Consistent(s: Session)
  {
    && (s.connected ==> s.handle)
    && (s.handle ==> s.handlesCreated > 0)
  }

  /** Every input keeps the session consistent. */
  lemma StepConsistent(s: Session, input: Input)
    requires Consistent(s)
    ensures Consistent(Step(s, input))
  {
  }

  /** Every reachable session is consistent. */
  lemma {:induction false} RunConsistent(s: Session, trace: seq<Input>)
    requires Consistent(s)
    ensures Consistent(Run(s, trace))
    decreases |trace|
  {
    if trace != [] {
      StepConsistent(s, trace[0]);
      RunConsistent(Step(s, trace[0]), trace[1..]);
    }
  }

  /** In a consistent session `emit` sends exactly when the session is connected. */
  lemma EmitSendsIffConnected(s: Session, event: string, payload: Payload)
    requires Consistent(s)
    ensures Emit(s, event, payload).sent == s.sent + [Message(event, payload)] <==> s.connected
    ensures !s.connected ==> Emit(s, event, payload) == s
  {
    if !s.connected {
      assert |Emit(s, event, payload).sent| == |s.sent|;
    }
  }

  /** `disconnect()` is idempotent. */
  lemma DisconnectIdempotent(s: Session)
    ensures Disconnect(Disconnect(s)) == Disconnect(s)
  {
  }

  /** Repeated `connect()` calls open at most one socket. */
  lemma {:induction false} ConnectRepeatedOpensOne(s: Session, n: nat)
    ensures ConnectTimes(s, n).handlesCreated == s.handlesCreated + (if s.handle || n == 0 then 0 else 1)
    ensures n > 0 ==> ConnectTimes(s, n) == Connect(s)
    decreases n
  {
    if n > 1 {
      ConnectRepeatedOpensOne(s, n - 1);
    }
  }

  /** `connect()` called `n` times in a row. */
  function ConnectTimes(s: Session, n: nat): Session
    decreases n
  {
    if n == 0 then s else Connect(ConnectTimes(s, n - 1))
  }

  /**
   With no `disconnect()` call in between, whatever else happens (transport
   events, timers, emits, registrations) at most one socket is opened, and once
   a socket is held it stays held.
   */
  lemma {:induction false} NoDisconnectOpensAtMostOne(s: Session, trace: seq<Input>)
    requires forall i :: 0 <= i < |trace| ==> trace[i] != CallDisconnect
    ensures Run(s, trace).handlesCreated <= s.handlesCreated + (if s.handle then 0 else 1)
    ensures s.handle ==> Run(s, trace).handle
    decreases |trace|
  {
    if trace != [] {
      var next := Step(s, trace[0]);
      assert next.handlesCreated <= s.handlesCreated + (if s.handle then 0 else 1);
      assert s.handle ==> next.handle && next.handlesCreated == s.handlesCreated;
      assert !next.handle ==> next.handlesCreated == s.handlesCreated;
      NoDisconnectOpensAtMostOne(next, trace[1..]);
    }
  }

  /**
   Once the counter has reached the ceiling, no further reconnect timer is
   scheduled until the transport reports a successful connection.
   */
  lemma {:induction false} CeilingStopsRescheduling(s: Session, trace: seq<Input>)
    requires s.attempts >= MaxReconnectAttempts
    requires forall i :: 0 <= i < |trace| ==> trace[i] != TransportConnect
    ensures Run(s, trace).pendingTimers <= s.pendingTimers
    ensures Run(s, trace).attempts >= MaxReconnectAttempts
    decreases |trace|
  {
    if trace != [] {
      var next := Step(s, trace[0]);
      assert next.attempts >= s.attempts;
      assert next.pendingTimers <= s.pendingTimers;
      CeilingStopsRescheduling(next, trace[1..]);
    }
  }

  /** Callback registrations are only ever changed by `addCallbacks` and `removeCallbacks`. */
  lemma {:induction false} RegistryChangesOnlyByRegistration(s: Session, trace: seq<Input>)
    requires forall i :: 0 <= i < |trace| ==> !trace[i].CallAddCallbacks? && !trace[i].CallRemoveCallbacks?
    ensures Run(s, trace).callbacks == s.callbacks
    decreases |trace|
  {
    if trace != [] {
      RegistryChangesOnlyByRegistration(Step(s, trace[0]), trace[1..]);
    }
  }

  /** The logs of sent messages and invocations only ever grow. */
  lemma {:induction false} LogsOnlyGrow(s: Session, trace: seq<Input>)
    ensures s.sent <= Run(s, trace).sent
    ensures s.invoked <= Run(s, trace).invoked
    decreases |trace|
  {
    if trace != [] {
      var next := Step(s, trace[0]);
      assert s.sent <= next.sent && s.invoked <= next.invoked;
      LogsOnlyGrow(next, trace[1..]);
    }
  }

  /** After `removeCallbacks(e, cb)`, the next inbound `e` does not reach `cb`. */
  lemma RemovedCallbackNotInvoked(s: Session, event: string, cb: CallbackId, payload: Payload)
    ensures var r := OnTransportEvent(RemoveCallbacks(s, event, cb), event, payload);
      forall i :: |s.invoked| <= i < |r.invoked| ==> r.invoked[i].callback != cb
  {
    var removed := RemoveCallbacks(s, event, cb);
    var r := OnTransportEvent(removed, event, payload);
    var cbs := Listeners(removed.callbacks, event);
    forall i | |s.invoked| <= i < |r.invoked|
      ensures r.invoked[i].callback != cb
    {
      assert r.invoked[i] == Invocation(cbs[i - |s.invoked|], payload);
    }
  }

  /**
   Registering a fresh callback and unregistering it again (the mount/unmount
   pair of a subscriber) leaves later dispatch of every event as it was.
   */
  lemma {:induction false} SubscribeUnsubscribeTransparent(s: Session, event: string, cb: CallbackId, other: string, payload: Payload)
    requires cb !in Listeners(s.callbacks, event)
    ensures var t := RemoveCallbacks(AddCallbacks(s, event, cb), event, cb);
      Dispatch(t, other, payload).invoked == Dispatch(s, other, payload).invoked
  {
    AddRemoveRoundTrip(s.callbacks, event, cb);
  }

  /** A single input never re-registers `cb` under `event` unless it is `addCallbacks(event, cb)`. */
  lemma StepKeepsRemoved(s: Session, input: Input, event: string, cb: CallbackId)
    requires cb !in Listeners(s.callbacks, event)
    requires input != CallAddCallbacks(event, cb)
    ensures cb !in Listeners(Step(s, input).callbacks, event)
  {
    if input.CallRemoveCallbacks? && input.event == event {
      WithoutCounts(Listeners(s.callbacks, event), input.cb, cb);
    }
  }

  /**
   Once `cb` is not registered under `event`, it stays unregistered there, over
   any run, until `addCallbacks(event, cb)` is called again.
   */
  lemma {:induction false} RemovedStaysRemoved(s: Session, trace: seq<Input>, event: string, cb: CallbackId)
    requires cb !in Listeners(s.callbacks, event)
    requires forall i :: 0 <= i < |trace| ==> trace[i] != CallAddCallbacks(event, cb)
    ensures cb !in Listeners(Run(s, trace).callbacks, event)
    decreases |trace|
  {
    if trace != [] {
      StepKeepsRemoved(s, trace[0], event, cb);
      RemovedStaysRemoved(Step(s, trace[0]), trace[1..], event, cb);
    }
  }

  /** A step that does not register `cb` keeps it unregistered and never calls it. */
  lemma StepNeverCallsUnregistered(s: Session, input: Input, cb: CallbackId)
    requires Unregistered(s.callbacks, cb)
    requires !(input.CallAddCallbacks? && input.cb == cb)
    ensures Unregistered(Step(s, input).callbacks, cb)
    ensures s.invoked <= Step(s, input).invoked
    ensures forall i :: |s.invoked| <= i < |Step(s, input).invoked| ==> Step(s, input).invoked[i].callback != cb
  {
    var r := Step(s, input);
    forall e | e in r.callbacks
      ensures cb !in r.callbacks[e]
    {
      StepKeepsRemoved(s, input, e, cb);
    }
    if input.TransportConnect? || input.TransportEvent? {
      var event := if input.TransportConnect? then "connect" else input.event;
      var cbs := Listeners(s.callbacks, event);
      forall i | |s.invoked| <= i < |r.invoked|
        ensures r.invoked[i].callback != cb
      {
        assert r.invoked[i] == Invocation(cbs[i - |s.invoked|], r.invoked[i].payload);
      }
    }
  }

  /**
   A callback that is registered nowhere (for instance after the unmount of
   the only subscriber that used it) is never called again, over any run, until
   it is registered again.
   */
  lemma {:induction false} UnregisteredNeverCalled(s: Session, trace: seq<Input>, cb: CallbackId)
    requires Unregistered(s.callbacks, cb)
    requires forall i :: 0 <= i < |trace| ==> !(trace[i].CallAddCallbacks? && trace[i].cb == cb)
    ensures forall i :: |s.invoked| <= i < |Run(s, trace).invoked| ==> Run(s, trace).invoked[i].callback != cb
    decreases |trace|
  {
    if trace != [] {
      var next := Step(s, trace[0]);
      StepNeverCallsUnregistered(s, trace[0], cb);
      UnregisteredNeverCalled(next, trace[1..], cb);
      LogsOnlyGrow(next, trace[1..]);
      var r := Run(s, trace);
      assert r == Run(next, trace[1..]);
      forall i | |s.invoked| <= i < |r.invoked|
        ensures r.invoked[i].callback != cb
      {
        if i < |next.invoked| {
          assert r.invoked[i] == next.invoked[i];
        }
      }
    }
  }

  /**
   `disconnect()` does not cancel a pending reconnect timer: whenever one is
   pending, its firing after a manual `disconnect()` opens a fresh socket.
   */
  lemma TimerAfterDisconnectReopens(s: Session)
    requires s.pendingTimers > 0
    ensures OnTimer(Disconnect(s)).handle
    ensures OnTimer(Disconnect(s)).handlesCreated == s.handlesCreated + 1
    ensures OnTimer(Disconnect(s)).attempts == s.attempts + 1
  {
  }

  /**
   A manual `disconnect()` of a connected session below the ceiling schedules
   a reconnect timer through the "disconnect" handler, and 2000 ms later that
   timer opens a new socket.
   */
  lemma ManualDisconnectReconnects(s: Session)
    requires s.handle && s.connected && s.attempts < MaxReconnectAttempts
    ensures Disconnect(s).pendingTimers == s.pendingTimers + 1
    ensures var r := OnTimer(Disconnect(s));
      r.handle && !r.connected && r.handlesCreated == s.handlesCreated + 1 && r.attempts == s.attempts + 1
  {
  }
}
