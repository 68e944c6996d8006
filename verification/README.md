# MediQ realtime session and form defaults — a Dafny model

This project models two small pieces of the MediQ patient-queue front end:

- **The WebSocket session wrapper** (`WebSocketService` in `lib/socket.ts`). This is the one
  process-wide object that holds the socket.io connection. It keeps an `isConnected` flag and a
  reconnect-attempt counter with a ceiling of 5. It also keeps a registry that maps each event name
  to the ordered list of callbacks registered under it.
  - `SocketSession.Session` models that object as an immutable record.
  - Each public operation (`connect`, `disconnect`, `emit`, `addCallbacks`, `removeCallbacks`) is
    a pure transition function.
  - So is each handler the wrapper installs on the socket: "connect", "disconnect" and `onAny`.
  - So is the firing of the 2000 ms reconnect timer.
  - `Step` and `Run` apply an arbitrary interleaving of these inputs.
  - Three counters and logs stand for the effects on the outside world:
    - `handlesCreated` counts the sockets `io(...)` opened;
    - `sent` logs the messages `emit` forwarded;
    - `invoked` logs every callback call with its payload.
- **The registration-form defaults builder** (`buildFormDefaults` in `utils/formDefaults.ts`).
  It turns an optional, partially filled OCR record of an Indonesian ID card into a fully populated
  form record.
  - Every input field is an `Option<string>`.
  - The JavaScript `value || ''` becomes `OrEmpty`, characterised by `Defaulted`: the result is
    `''` exactly when the input is missing or empty, and is the input otherwise.
  - The output type `FormRecord` has a fixed set of fields, so every key is always present. This
    includes `notes`, which is optional on input, and the nested `alamat` and `institution` blocks.

The code has none of the following behaviours, and neither does the model:

- Dispatch uses the wire event name unchanged. There is no aliasing of `queue_updated` or
  `queue_status` to `queue_update`.
- A reconnect replays no subscriptions.
- No auth token is sent or updated.
- The reconnect delay is a constant 2000 ms, so there is no backoff growth.
- A manual `connect()` does not reset the attempt counter. Only the transport's "connect" handler
  does.
- `disconnect()` does not cancel a pending reconnect timer. `SocketSession.TimerAfterDisconnectReopens`
  and `SocketSession.ManualDisconnectReconnects` show the resulting fresh socket.
- A callback may be registered several times under one event, and is then called once per entry.
- `removeCallbacks` leaves an empty list under the event name. `CallbackRegistry.AddRemoveRoundTrip`
  states exactly what is restored.

The transport is an input, not a component. A transport event reaches the session only while a
socket is held. A socket closed by `disconnect()` keeps the wrapper's handlers, but socket.io tears
it down inside `socketRef.disconnect()`, so it delivers no later event. The one event it does
deliver is its own "disconnect", synchronously during that call and before `socketRef` is cleared:
`SocketSession.Disconnect` therefore runs the "disconnect" handler itself when the socket is
connected.

## Model

| member | source | states |
|---|---|---|
| CallbackRegistry.Add | lib/socket.ts:64-69 | the event gets a list if it had none; `cb` is appended at the end, after every earlier entry (duplicates allowed); every other event's list is unchanged |
| CallbackRegistry.Without | lib/socket.ts:73 | the filtered list never contains `cb`, and it is shorter by exactly the number of occurrences of `cb` |
| CallbackRegistry.Remove | lib/socket.ts:71-75 | the key set is unchanged; only `event`'s list is filtered, and an unknown event leaves the registry as it is |
| CallbackRegistry.WithoutCounts | lib/socket.ts:73 | filtering deletes every occurrence of `cb` and keeps every other callback exactly as many times as before |
| CallbackRegistry.WithoutIsSubsequence | lib/socket.ts:73 | the callbacks that remain keep their relative registration order |
| CallbackRegistry.WithoutConcat | lib/socket.ts:73 | filtering acts entry by entry: filtering a concatenation is the concatenation of the filtered parts |
| CallbackRegistry.WithoutAbsent | lib/socket.ts:73 | filtering out a callback that is not in the list returns the list unchanged |
| CallbackRegistry.RemoveAbsentIsNoOp | lib/socket.ts:71-75 | removing a callback that is not registered under the event, or removing from an unknown event, changes nothing |
| CallbackRegistry.AppendThenWithout | lib/socket.ts:68-73 | appending a fresh callback and then filtering it out gives back the original list |
| CallbackRegistry.AddRemoveRestoresList | lib/socket.ts:64-75 | adding a fresh callback and removing it puts the previous list back under the event |
| CallbackRegistry.AddRemoveRoundTrip | lib/socket.ts:64-75 | after adding and then removing a fresh callback, every event's listener list is as before; the map is identical when the event already had a list, and otherwise holds an extra empty list |
| SocketSession.Invocations | lib/socket.ts:79 | `forEach` makes one call per list entry, in list order, each with the same payload |
| SocketSession.Dispatch | lib/socket.ts:77-81 | only the callbacks registered under exactly this event name are called, once per entry, in registration order, with the payload; an unknown event calls nothing; no other state changes |
| SocketSession.Connect | lib/socket.ts:22-25 | with a socket already held nothing changes; otherwise exactly one socket is opened and nothing else changes |
| SocketSession.Disconnect | lib/socket.ts:34-56 | afterwards no socket is held; a held socket also clears `isConnected`; without a socket nothing changes; a connected socket below the ceiling of 5 schedules exactly one reconnect timer through the synchronous "disconnect" handler, otherwise no timer; callbacks, counter and logs are never touched |
| SocketSession.Emit | lib/socket.ts:58-62 | the message is forwarded exactly when a socket is held and connected; otherwise nothing changes and nothing fails |
| SocketSession.AddCallbacks | lib/socket.ts:64-69 | `cb` is appended to the event's listeners; every other event's listeners and all other state are unchanged |
| SocketSession.RemoveCallbacks | lib/socket.ts:71-75 | `cb` no longer listens to the event; the remaining listeners keep their order; other events are untouched; an absent callback or unknown event is a no-op |
| SocketSession.OnTransportConnect | lib/socket.ts:27-32 | the session becomes connected and the counter resets to 0; exactly the `connect` callbacks are called in order with `null`; nothing else changes |
| SocketSession.OnTransportDisconnect | lib/socket.ts:34-43 | the session becomes disconnected; a reconnect timer is scheduled if and only if the counter is below 5; nothing else changes |
| SocketSession.OnTransportEvent | lib/socket.ts:45-47 | any other inbound event is dispatched under its wire name to exactly the callbacks of that name |
| SocketSession.OnTimer | lib/socket.ts:38-41 | a firing timer raises the counter by exactly 1 and then connects; while a socket is still held that is the only change; otherwise one new socket is opened |
| SocketSession.StepConsistent | lib/socket.ts:22-62 | no input leaves the session connected without a socket, or holding a socket that was never opened |
| SocketSession.RunConsistent | lib/socket.ts:22-62 | every state reachable from a consistent state is consistent |
| SocketSession.EmitSendsIffConnected | lib/socket.ts:58-62 | in a consistent session, `emit` sends exactly when `isConnected` is true |
| SocketSession.DisconnectIdempotent | lib/socket.ts:50-56 | calling `disconnect()` twice is the same as calling it once |
| SocketSession.ConnectRepeatedOpensOne | lib/socket.ts:22-25 | any number of back-to-back `connect()` calls opens at most one socket and ends where a single call does |
| SocketSession.NoDisconnectOpensAtMostOne | lib/socket.ts:22-47 | over any run without a `disconnect()` call, including transport events and timer firings, at most one socket is opened, and a held socket stays held |
| SocketSession.CeilingStopsRescheduling | lib/socket.ts:30-41 | once the counter reaches 5, no further reconnect timer is scheduled until the transport reports a connection |
| SocketSession.RegistryChangesOnlyByRegistration | lib/socket.ts:22-81 | only `addCallbacks` and `removeCallbacks` change the callback registry; reconnecting, disconnecting and dispatch keep it |
| SocketSession.LogsOnlyGrow | lib/socket.ts:22-81 | messages forwarded to the transport and callback calls made are never taken back |
| SocketSession.RemovedCallbackNotInvoked | lib/socket.ts:71-81 | right after `removeCallbacks(e, cb)`, the next inbound `e` does not call `cb` |
| SocketSession.StepKeepsRemoved | lib/socket.ts:22-81 | no single input except `addCallbacks(e, cb)` puts `cb` back under `e` |
| SocketSession.RemovedStaysRemoved | lib/socket.ts:64-75 | once `cb` is not registered under `e`, it stays out of `e`'s list over any run until `addCallbacks(e, cb)` is called again |
| SocketSession.StepNeverCallsUnregistered | lib/socket.ts:27-81 | an input that does not register `cb` keeps `cb` registered nowhere and makes no call to it |
| SocketSession.UnregisteredNeverCalled | lib/socket.ts:27-81 | a callback registered under no event is never called again, over any run, until it is registered again |
| SocketSession.SubscribeUnsubscribeTransparent | hooks/useWebSocket.ts:16-20 | registering a fresh callback and unregistering it again, as the hook does on mount and unmount, leaves dispatch of every event as it was |
| SocketSession.TimerAfterDisconnectReopens | lib/socket.ts:38-41 | for every session with a pending reconnect timer, that timer firing after a manual `disconnect()` raises the counter by 1 and opens exactly one new socket: `disconnect()` cancels no timer |
| SocketSession.ManualDisconnectReconnects | lib/socket.ts:34-56 | for every connected session below the ceiling, a manual `disconnect()` schedules one reconnect timer, and when it fires a new disconnected socket is opened and the counter rises by 1 |
| FormDefaults.OrEmpty | utils/formDefaults.ts:5 | the logical-or default yields `''` exactly when the value is missing or empty, and yields the value itself otherwise |
| FormDefaults.BuildAlamat | utils/formDefaults.ts:14-21 | each of the six address fields is defaulted on its own; a missing address block yields all six as `''` |
| FormDefaults.BuildInstitution | utils/formDefaults.ts:25-33 | each of the seven institution fields is defaulted on its own; a missing institution yields all seven as `''` |
| FormDefaults.BuildFormDefaults | utils/formDefaults.ts:4-34 | no input gives the empty form; the password is always `''`; the other eleven top-level fields are copied when non-empty and `''` otherwise; both nested blocks are always present |
| FormDefaults.RoundTrip | utils/formDefaults.ts:4-34 | any form record with an empty password is rebuilt exactly from itself read back as an OCR record |
| FormDefaults.Idempotent | utils/formDefaults.ts:4-34 | applying the builder to its own output returns that output unchanged |
| FormDefaults.PasswordIgnored | utils/formDefaults.ts:23 | the input's password, present or not, has no influence on the result |
| FormDefaults.EmptyRecordGivesEmptyForm | utils/formDefaults.ts:4-34 | a record whose fields are all missing or empty, with no nested blocks, yields the same form as no record |

## Left out

- The socket.io transport: the endpoint URL, the handshake, and socket.io's own automatic reconnection. Its notifications are inputs of the model.
- Real timers. A reconnect timer is a count of pending firings, and `TimerFires` consumes one. All timers have the same delay, so they fire in the order they were scheduled and need no identity.
- `console.log` calls. They have no effect on the state.
- The singleton accessor `getInstance`. It only creates one session lazily; `SocketSession.Initial` is that session.
- Side effects of callbacks. A callback is its identity and is only recorded as called, so the model has no re-entrant callbacks.
  - A callback that calls `removeCallbacks` mid-dispatch is not modelled.
  - A callback that throws, which would abort the rest of a `forEach`, is not modelled.
- Event names that coincide with `Object.prototype` properties (`toString`, `constructor`, ...) are not modelled. On a plain JavaScript object those names find an inherited function, so `addCallbacks` under such a name would fail at `push`. The model treats the registry as a true map.
- SocketSession.Emit: the reserved event names of socket.io-client (`connect`, `disconnect`, `connect_error`, `disconnecting`, `newListener`, `removeListener`) are not modelled. For those names socket.io's own `emit` throws. So `emit` of such a name on a connected session raises an error from lib/socket.ts:60, while the model records the message as sent. The throw is inside the transport library, which is not part of this model.
- Payloads are opaque. The session never inspects them.
- `OrEmpty` models `||` only on strings and missing values. The record types declare every field a string, so other falsy values are not modelled.
- `Interfaces/IInstitusi` is not part of this model. The seven institution fields are taken from the builder itself. The field `type` is called `kind`, because `type` is a Dafny keyword.
- The React hook `useWebSocket` is not modelled. Its mount/unmount pair is covered by `SocketSession.SubscribeUnsubscribeTransparent`.
- The HTTP client, storage, state atoms, screens and build configuration are not modelled. They hold no session or defaulting logic.
