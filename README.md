# Reconnecting WebSocket clients

This project models the two WebSocket client controllers of the `fe-common-utils`
repository and proves properties of the model:

- `SocketClient` (`src/web-socket/index.ts`). It holds frames in a waiting set while the
  socket is not OPEN and flushes them on `open`. It runs an application-level JSON
  `ping`/`pong` heartbeat with two timeouts. It fans every other inbound message out to its
  subscribers. On `error`, on `close(true)` and on a heartbeat timeout it reconnects with a
  capped exponential backoff, guarded by a lock and an attempt limit.
- `WebSocketClient` (`src/web-socket/index.ai.js`). It retries at a fixed interval, a
  bounded number of times, on `close` events and when the socket constructor throws. It
  keeps a handler set. Its `send` reports whether it transmitted. It calls the host's
  optional `onOpen`, `onError`, `onClose` and `onMaxReconnect` callbacks.

Both clients are event-driven objects, so they are modelled as Dafny classes:

- Socket events and timer firings are methods that the host calls.
- Each method's `ensures` gives the new state.
- Each class keeps a `Valid()` invariant.
- The rules for attempts, the lock and pending timers are also written as pure transition
  functions over event sequences (`ReconnectGuard`, `RetryGuard`). The class methods are
  proved to follow them, and lemmas about whole runs are proved on them.

Layout, one module per file:

| file | module | contents |
|---|---|---|
| wrappers.dfy | `Wrappers` | `Option` |
| codec.dfy | `Codec` | frames, decoded values, the `event` lookup, heartbeat records |
| transport.dfy | `Transport` | `ReadyState`; the host socket as a class with a ghost log of sent frames |
| ordered_sets.dfy | `OrderedSets` | a JavaScript `Set` as an insertion-ordered sequence without duplicates; `forEach` fan-out |
| backoff.dfy | `Backoff` | the reconnect delay `min(2^n * 1000, 30000) + jitter` |
| reconnect_guard.dfy | `ReconnectGuard` | attempts / lock / pending reconnect timeout of `SocketClient`, over runs of events |
| retry_guard.dfy | `RetryGuard` | attempts / pending `connect()` timeouts of `WebSocketClient`, over runs of events |
| reconnecting_client.dfy | `ReconnectingClient` | class `SocketClient` and five usage scenarios |
| simple_client.dfy | `SimpleClient` | class `WebSocketClient` and one usage scenario |

How host facilities are represented:

- Timers are state. For `SocketClient`:
  - each armed heartbeat timeout is an entry of `pendingTimeouts` (the host's table), from its handle to its delay;
  - `clearTimeout` removes the handle from that table;
  - the fields `heartbeatTimer` and `serverTimer` keep their last handle, because
    `stopHeartbeat` does not null them;
  - the reconnect timeouts, whose handle the source never stores, are a sequence of their
    delays.

  For `WebSocketClient`, the pending `connect()` timeouts are a sequence of their delays.
- Randomness becomes a parameter: the jitter is a real in [0, 100]. `Math.random() * 100` lies in [0, 100), but adding it to the base delay in doubles can round up to exactly 100 more, so the closed range covers every delay the source can schedule.
- The JSON codec is a pair of opaque total functions that each client receives at
  construction.
- Whether `new WebSocket(url)` throws is the `accepted` parameter of `Connect`.
- `Date.now()` is the `now` parameter of the methods that build a heartbeat record.
- The default arguments `heartEnabled = true` (src/web-socket/index.ts:25) and
  `options = {}` (src/web-socket/index.ai.js:3) are ordinary constructor parameters;
  omitting them corresponds to passing `true` and `Options(None, None, false, false, false, false)`.

Behaviour of the code that the model keeps as written:

- In `SocketClient`, the `close` event only logs. It never reconnects
  (src/web-socket/index.ts:72-74).
- `connect()` never resets `reconnectAttempts`. After the limit is reached, nothing is
  scheduled again until an `open` event (`ReconnectGuard.ExhaustionPersists`).
- `stopHeartbeat` clears both timeouts but leaves their handles in the fields.
- `close(false)` does not cancel a pending reconnect timeout. When that timeout fires, it
  still calls `connect()`.
- `close(true)` does not stop the heartbeat. A later ping while the socket is closed goes
  into the waiting set.
- The attempt counter is incremented before the delay is computed. The five possible
  delays are therefore 2000, 4000, 8000, 16000 and 30000 ms before jitter
  (`Backoff.DelaySchedule`).
- Handlers stay bound to replaced sockets, so their events still reach the client. Suppose
  an `open` event arrives while the current socket is not OPEN. Each waiting frame is then
  re-added to the set it is already in, and the set is cleared: the frames are dropped
  (`OnOpen`).
- In `SocketClient`, a frame that decodes to `null` makes the `event` lookup throw
  (src/web-socket/index.ts:53-54): no reply is sent, no timer changes and no subscriber is
  called. `WebSocketClient` passes such a value to its handlers.
- A subscriber's `type` field is never consulted: every subscriber gets every
  non-heartbeat message.
- The waiting set is a `Set`, so equal frames queued twice are sent once.
- `WebSocketClient` has no reconnect lock. Every `close` event schedules its own
  `connect()` while attempts remain (`RetryGuard.EveryCloseSchedules`).
- `WebSocketClient.close()` detaches no handler. The socket's later `close` event
  therefore still schedules a reconnect.
- `options.maxReconnectAttempts || 5` turns an explicit 0 into 5. A negative limit never
  retries.

## Model

| member | source | states |
|---|---|---|
| Codec.HeartbeatMessage | src/web-socket/index.ts:57 | a heartbeat record is a structured value whose `event` is the given name and whose `timestamp` is the host time it was made at |
| Codec.HeartbeatsDiffer | src/web-socket/index.ts:98 | heartbeats made at different times are different values (the `timestamp` member differs); whether their frames differ is left to the encoder |
| Transport.AfterClose | src/web-socket/index.ts:129 | closing a socket leaves it neither CONNECTING nor OPEN, and is a no-op once it is CLOSING or CLOSED |
| Transport.Socket.Send | src/web-socket/index.ts:117 | sending on an OPEN socket appends exactly that frame to what it transmitted |
| Transport.Socket.Close | src/web-socket/index.ai.js:82 | `close()` moves the state as `AfterClose` says and transmits nothing |
| OrderedSets.Add | src/web-socket/index.ts:114 | `Set.add`: members become the old ones plus `x`, no duplicates appear, a present member changes nothing, insertion order is kept |
| OrderedSets.Delete | src/web-socket/index.ts:145 | `Set.delete`: exactly `x` is removed, the others stay, size drops by one iff `x` was present |
| OrderedSets.DeleteUndoesAdd | src/web-socket/index.ts:139-142 | adding a new member and then calling the returned remover gives back the original set, order included |
| OrderedSets.BroadcastOnce | src/web-socket/index.ts:63 | `forEach` fan-out calls each member exactly once with the message and calls nobody else |
| Backoff.BaseDelay | src/web-socket/index.ts:86 | the delay before jitter lies between 1000 and `maxReconnectDelay` (30000) |
| Backoff.ReconnectDelay | src/web-socket/index.ts:84-86 | with jitter in [0,100], the delay minus the base delay lies in [0,100], and the delay is at most 30100, as it is in the source once double rounding is counted |
| Backoff.BaseDelayMonotone | src/web-socket/index.ts:86 | the delay never decreases as the attempt number grows |
| Backoff.BaseDelayDoubles | src/web-socket/index.ts:86 | each attempt doubles the previous delay until the cap applies |
| Backoff.BaseDelaySaturates | src/web-socket/index.ts:86 | from the fifth attempt on the delay equals the cap |
| Backoff.BaseDelayBelowCap | src/web-socket/index.ts:86 | below the fifth attempt the delay is `2^n * 1000` and under the cap |
| Backoff.DelaySchedule | src/web-socket/index.ts:77-86 | the reachable delays are 2000, 4000, 8000, 16000, 30000 |
| ReconnectGuard.Request | src/web-socket/index.ts:76-87 | `reconnect()` is a no-op when attempts are exhausted or the lock is held, and exactly when attempts remain and the lock is free it adds one attempt, takes the lock and one pending timeout; it preserves the guard invariant |
| ReconnectGuard.Step | src/web-socket/index.ts:43-92 | only `open` lowers the attempt counter; every event keeps attempts within the limit, at most one timeout pending, lock held iff one is |
| ReconnectGuard.RunPreservesValid | src/web-socket/index.ts:76-92 | over any sequence of error, close, timeout and open events, at most one reconnect timeout is pending and attempts never exceed the maximum |
| ReconnectGuard.SchedulesBounded | src/web-socket/index.ts:77-86 | without an `open`, the number of scheduled reconnects equals the attempts added and is at most `maxReconnectAttempts - attempts` |
| ReconnectGuard.ExhaustionPersists | src/web-socket/index.ts:30-80 | once attempts reach the maximum, no reconnect is scheduled and the counter stays at the maximum until the next `open` |
| ReconnectGuard.FailuresScheduleOnce | src/web-socket/index.ts:81-82 | any burst of failures schedules at most one reconnect timeout, and exactly one when it starts unlocked with attempts remaining; the lock is held afterwards if one was scheduled |
| ReconnectGuard.LockedFailuresAreIdle | src/web-socket/index.ts:81 | while the lock is held, failures change nothing |
| RetryGuard.Request | src/web-socket/index.ai.js:55-63 | `_handleReconnect` below the maximum adds exactly one attempt and one pending `connect()`; at or above it changes nothing; it keeps the counter within the maximum |
| RetryGuard.Step | src/web-socket/index.ai.js:17-59 | only `close` events and constructor failures can add a pending timeout; every event keeps the counter within the maximum |
| RetryGuard.RunPreservesValid | src/web-socket/index.ai.js:55-63 | over any sequence of events the counter stays zero or within the maximum |
| RetryGuard.SchedulesBounded | src/web-socket/index.ai.js:56-59 | without an `open`, each scheduled timeout adds one attempt and the counter ends within the maximum |
| RetryGuard.ErrorsNeverSchedule | src/web-socket/index.ai.js:35-40 | `error` events never schedule a reconnect nor change the counter |
| RetryGuard.EveryCloseSchedules | src/web-socket/index.ai.js:42-48 | with no lock, each of `k` close events schedules its own timeout while attempts remain |
| ReconnectingClient.SocketClient.constructor | src/web-socket/index.ts:11-28 | a new client has no socket, no timers, no attempts, no lock, empty buffer and subscriber set |
| ReconnectingClient.SocketClient.ReadyState | src/web-socket/index.ts:124-126 | undefined without a socket, otherwise the socket's state; OPEN exactly when the client counts as open |
| ReconnectingClient.SocketClient.Connect | src/web-socket/index.ts:30-41 | an accepted URL installs a fresh CONNECTING socket; a throwing constructor keeps the old socket; attempts and lock are untouched |
| ReconnectingClient.SocketClient.Reconnect | src/web-socket/index.ts:76-87 | state follows `ReconnectGuard.Request`; a scheduled timeout carries the delay `ReconnectDelay(new attempts, jitter)` |
| ReconnectingClient.SocketClient.FireReconnect | src/web-socket/index.ts:88-91 | the timeout releases the lock, leaves no pending reconnect and calls `connect()` |
| ReconnectingClient.SocketClient.StopHeartbeat | src/web-socket/index.ts:107-110 | both heartbeat timeouts are disarmed while the handle fields are kept |
| ReconnectingClient.SocketClient.SendHeartbeat | src/web-socket/index.ts:94-105 | clears both heartbeat timeouts and arms a new ping timeout under a fresh handle, so afterwards exactly one timeout is armed, with the 5000 ms heartbeat interval |
| ReconnectingClient.SocketClient.Send | src/web-socket/index.ts:112-118 | on an OPEN socket exactly that frame is transmitted and the buffer is unchanged; otherwise it is added to the waiting set with set semantics and nothing is transmitted |
| ReconnectingClient.SocketClient.SendMessage | src/web-socket/index.ts:120-122 | the same for the encoded value |
| ReconnectingClient.SocketClient.OnOpen | src/web-socket/index.ts:43-50 | attempts reset to 0; with the socket OPEN every waiting frame is transmitted once, in order; the waiting set ends empty; when the heartbeat is enabled a new 5000 ms ping timeout is the only one armed |
| ReconnectingClient.SocketClient.OnMessage | src/web-socket/index.ts:52-65 | a frame decoding to `null` changes nothing (the `event` lookup throws); `ping` sends one `pong` stamped with the current time and calls no subscriber; `pong` restarts the cycle, disarming the ack timeout and arming a new 5000 ms ping timeout under a fresh handle; anything else calls every subscriber once with the decoded message |
| ReconnectingClient.SocketClient.OnError | src/web-socket/index.ts:67-70 | an error goes through `reconnect()` |
| ReconnectingClient.SocketClient.OnClose | src/web-socket/index.ts:72-74 | a close event leaves the reconnect guard as it was |
| ReconnectingClient.SocketClient.FireHeartbeat | src/web-socket/index.ts:97-100 | the ping timeout sends one `ping` stamped with the current time through `_send` and arms the 10000 ms ack timeout under a fresh handle in its place, leaving it the only one armed |
| ReconnectingClient.SocketClient.Close | src/web-socket/index.ts:128-137 | closes the socket; with `rFlag` keeps buffer, subscribers and timers and reconnects; without it stops the heartbeat, empties buffer and subscribers and drops the socket |
| ReconnectingClient.SocketClient.FireServerTimeout | src/web-socket/index.ts:100-103 | a missing `pong` closes the socket and reconnects, with no heartbeat timeout left armed |
| ReconnectingClient.SocketClient.Subscribe | src/web-socket/index.ts:139-142 | adds the subscriber with set semantics and returns a remover for exactly it |
| ReconnectingClient.SocketClient.Unsubscribe | src/web-socket/index.ts:144-146 | true iff the subscriber was present; afterwards it is absent and every other subscriber is unchanged |
| ReconnectingClient.SocketClient.Dispose | src/web-socket/index.ts:141 | the returned remover deletes exactly its subscriber |
| SimpleClient.OrDefault | src/web-socket/index.ai.js:8-9 | `option \|\| default`: an absent or zero option yields the default, any other the option |
| SimpleClient.WebSocketClient.constructor | src/web-socket/index.ai.js:3-11 | defaults of 5 attempts and 3000 ms, no socket, no attempts, no handlers |
| SimpleClient.WebSocketClient.HandleReconnect | src/web-socket/index.ai.js:55-63 | state follows `RetryGuard.Request`; the new timeout has the fixed interval; `onMaxReconnect` is called only at the limit and only if provided |
| SimpleClient.WebSocketClient.Connect | src/web-socket/index.ai.js:13-53 | an accepted URL installs a fresh CONNECTING socket without touching the counter; a throwing constructor keeps the old socket and goes through `_handleReconnect` |
| SimpleClient.WebSocketClient.FireConnect | src/web-socket/index.ai.js:59 | a pending timeout runs `connect()`: an accepted URL leaves counter and callbacks alone; a throwing constructor goes through `_handleReconnect`, which calls `onMaxReconnect` at the limit when it is provided |
| SimpleClient.WebSocketClient.OnOpenEvent | src/web-socket/index.ai.js:17-23 | calls `onOpen` if provided and resets the counter to 0 |
| SimpleClient.WebSocketClient.OnMessageEvent | src/web-socket/index.ai.js:25-33 | every handler is called once with the decoded message |
| SimpleClient.WebSocketClient.OnErrorEvent | src/web-socket/index.ai.js:35-40 | calls `onError` if provided and never reconnects |
| SimpleClient.WebSocketClient.OnCloseEvent | src/web-socket/index.ai.js:42-48 | calls `onClose` if provided, then `_handleReconnect` |
| SimpleClient.WebSocketClient.Send | src/web-socket/index.ai.js:65-73 | true iff a socket exists and is OPEN, and then exactly one frame is transmitted; otherwise false, nothing transmitted, nothing kept |
| SimpleClient.WebSocketClient.OnMessage | src/web-socket/index.ai.js:75-78 | adds the handler with set semantics and returns a remover for exactly it |
| SimpleClient.WebSocketClient.Dispose | src/web-socket/index.ai.js:77 | the remover deletes exactly its handler and answers whether it was present |
| SimpleClient.WebSocketClient.Close | src/web-socket/index.ai.js:80-85 | closes and forgets an existing socket; without a socket nothing changes |

## Left out

- The JSON helpers (`src/json/index.ts`) and the inline `JSON.parse` fallback are foreign calls. They are opaque functions here, so the codec's passthrough on failure is not modelled. `isJSON` is not used by either client.
- Binary frames (`Blob`, `ArrayBuffer`) are left out: a frame is a string.
- Real time is left out: delays are recorded with each pending timeout, but the order in which the host fires timeouts and socket events is left to the caller.
- Logging and `toLocaleString` are left out.
- Codec.HeartbeatsDiffer: states only that the two heartbeat values differ. The encoder is opaque, so the model does not promise that heartbeats with different timestamps become different frames (`JSON.stringify` does make them different). `ReconnectingClient.PongQueueScenario` uses the lemma: with an encoder that keeps distinct values apart, two `pong`s queued at different times stay as two waiting frames, as in the source.
- Binding the socket's `on*` properties is not a separate step. Any socket event, from the current socket or an earlier one, is a call of the client's handler method.
- ReconnectingClient.SocketClient.OnMessage: a subscriber callback is recorded as invoked, not run. Its side effects, and the fact that a throwing callback stops the rest of the `forEach`, are not modelled.
- SimpleClient.WebSocketClient.OnMessageEvent: the same holds for message handlers.
- SimpleClient.OrDefault: only numeric options are modelled. Other falsy values (`NaN`, `''`, `false`) also fall back to the default in the source.
- Backoff.ReconnectDelay: the delay is computed with exact reals instead of IEEE doubles. The base delay `min(2^n * 1000, 30000)` is exact in doubles for the reachable exponents 1 to 5. Adding the jitter is rounded in the source (2000 + 0.1 is not exactly 2000.1), and it can round up to exactly the base delay plus 100 (2000 + 99.99999999999997 is 2100 in doubles). The model's jitter ranges over the closed [0, 100], so every delay the source can produce is one the model allows, up to 30100 at the cap; the model also allows real delays between doubles.
- SimpleClient.WebSocketClient.Send: `JSON.stringify` is called without a guard. For a value it cannot serialise (a cyclic object, a `BigInt`) the source's `send` throws, while the model transmits `encode(data)` and returns true.
- SimpleClient.WebSocketClient.OnOpenEvent: a throwing `onOpen` callback stops the handler before the counter is reset. The model assumes the callback returns normally and always resets.
- SimpleClient.WebSocketClient.OnCloseEvent: a throwing `onClose` callback stops the handler before `_handleReconnect`. The model assumes the callback returns normally and always goes on to reconnect.
