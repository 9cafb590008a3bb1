# cWs client connection lifecycle, in Dafny

This project models the per-socket connection lifecycle of the cWs WebSocket
client (`lib/cws/client.ts`). The file is mostly glue around a native engine.
Inside it is a small state machine:

- a `WebSocket` object that holds zero or one engine connection handle
  (`external`);
- the engine callbacks (connection, message, ping, pong, error,
  disconnection) that turn engine notifications into events on the object;
- the outbound operations `ping`, `send`, `terminate` and `close`.

How the model is built:

- `CwsClient.WebSocket` is a class with the source's `external` and
  `executeOn` fields and three logs:
  - `trace`: the events emitted and the callbacks invoked, in order;
  - `deferred`: the `process.nextTick` queue, a FIFO queue of tasks;
  - `engineCalls`: the calls made into the native engine,
    which is seen only through this log.
- `RunTick` drains the deferred queue, front first. What a drained queue
  produces is the function `RunTasks`.
- The engine callbacks are module-level methods (`OnConnection`, …). Each one
  receives the socket that the engine's user-data association gives for the
  handle. `OnFlush` is the wrapper that `send` gives the engine as its flush
  callback.
- `CwsProperties` holds the lemmas about the deferred queue. It also holds
  scenario methods: each builds a socket, drives it through a lifecycle, and
  states what it observes.

Modelling choices:

- An absent value is `Option.None`: the handle `external` when it is `null`
  or `undefined`, and an optional argument or option field that was left
  out (`undefined`). For `close`'s `code`, `None` means omitted, which the
  default parameter turns into 1000.
- The engine's status code is an `Option<int>`. It is falsy when it is `None`
  (`undefined`) or `Some(0)`.
- A payload is either `Str` (a JavaScript string) or `Buf` (a Buffer). That
  distinction is the `typeof message === 'string'` test.
- `SendOptions.binary` is an `Option<bool>`. Only `Some(false)` matches
  `=== false`.
- The opcodes are symbolic (`TextFrame`, `BinaryFrame`, `PingFrame`). Their
  numeric values come from `./shared`, which is not part of this model.
- `send` uses text only when `options.binary === false` or the message is a
  string (`client.ts:140`). So a Buffer with no options is sent as binary,
  and a string with `{binary: true}` is still sent as text.
- The engine callbacks are registered on the client group only
  (`client.ts:10-54`), and only a client construction hands the socket to
  that group (`client.ts:80`). So each callback requires a client-role socket.
  `OnFlush` is the exception: every send creates its wrapper, whatever the
  role. It requires that an earlier engine send on the socket carried that
  callback.

## Model

| member | source | states |
|---|---|---|
| `CwsClient.SelectOpcode` | lib/cws/client.ts:140-141 | text exactly when the options say `binary === false` or the message is a string; binary exactly when a Buffer is sent without `binary === false`; never ping; a Buffer with no options gives binary; a string always gives text, even with `binary: true` |
| `CwsClient.IsFalsy` | lib/cws/client.ts:40 | the `!code` test: a status code is falsy exactly when it is undefined or zero |
| `CwsClient.TaskEffect` | lib/cws/client.ts:29-52 | one deferred task yields one or two observations; the last is a `close` exactly for a disconnection; there are two exactly for a falsy-code disconnection, and the first is then the invalid-status `error`; a disconnection with a non-zero code C and message M yields just `close(C, M)` |
| `CwsClient.RunTasks` | lib/cws/client.ts:29-52 | draining a queue yields between one and two observations per task, with the front task's observations first |
| `CwsClient.WebSocket.Emit` | lib/cws/client.ts:13 | `emit` appends exactly that event to the trace |
| `CwsClient.WebSocket.Defer` | lib/cws/client.ts:29 | `process.nextTick` puts the task at the back of the queue |
| `CwsClient.WebSocket.Call` | lib/cws/client.ts:153 | each `native.*` call appends exactly that call to the engine log |
| `CwsClient.WebSocket.ReadyState` | lib/cws/client.ts:102-104 | OPEN (1) exactly when a handle is present, CLOSED (0) exactly when none is |
| `CwsClient.WebSocket.constructor` | lib/cws/client.ts:69-82 | the handle is the one supplied; the role is server when `isServer` and client otherwise; a client construction makes exactly one `connect(url)` engine call, a server one makes none; nothing is emitted or queued |
| `CwsClient.WebSocket.Ping` | lib/cws/client.ts:133-136 | on a closed socket, no engine call and no state change; on an open one, exactly one engine send of the message with the ping opcode on the socket's role and handle |
| `CwsClient.WebSocket.Send` | lib/cws/client.ts:138-143 | on a closed socket, no engine call, and `cb` (if given) is invoked at once with "Not opened"; on an open one, nothing is invoked or emitted, and there is exactly one engine send with the opcode of `SelectOpcode`, the deferring flush wrapper when `cb` is given, and the compress hint of the options |
| `CwsClient.WebSocket.Terminate` | lib/cws/client.ts:145-149 | afterwards no handle; on an open socket, exactly one engine terminate on the old handle; on a closed one, no engine call; nothing is emitted |
| `CwsClient.WebSocket.Close` | lib/cws/client.ts:151-155 | afterwards no handle; on an open socket, exactly one engine close with the given code (1000 if none) and reason; on a closed one, no engine call; nothing is emitted |
| `CwsClient.WebSocket.Execute` | lib/cws/client.ts:29-52 | running one deferred task appends exactly that task's effect to the trace |
| `CwsClient.WebSocket.RunTick` | lib/cws/client.ts:29-52 | the deferred queue ends empty, and the trace grows by `RunTasks` of the queue, in FIFO order |
| `CwsClient.OnConnection` | lib/cws/client.ts:10-14 | for a client-role socket, the handle is stored, so `readyState` is OPEN, and `open` is emitted at once |
| `CwsClient.OnMessage` | lib/cws/client.ts:16-18 | `message` with the payload is emitted at once |
| `CwsClient.OnPing` | lib/cws/client.ts:20-22 | `ping` with the payload is emitted at once |
| `CwsClient.OnPong` | lib/cws/client.ts:24-26 | `pong` with the payload is emitted at once |
| `CwsClient.OnError` | lib/cws/client.ts:28-35 | the handle and the trace are unchanged; only a deferred connection `error` is queued |
| `CwsClient.OnDisconnection` | lib/cws/client.ts:37-54 | the handle is cleared at once (`readyState` CLOSED); the close handling is queued with the engine's code and message; the engine's user data for the handle is cleared at once |
| `CwsClient.OnFlush` | lib/cws/client.ts:142 | when the engine flushes a send that carried the callback, the completion callback is queued for the next tick, not invoked |
| `CwsProperties.RunTasksAppend` | lib/cws/client.ts:29-52 | draining two queues in a row observes the first queue's effects, then the second's |
| `CwsProperties.DisconnectionFalsyTick` | lib/cws/client.ts:40-48 | with a falsy code, the tick emits exactly `error` then `close(1006, '')` after earlier tasks, whatever the engine's message |
| `CwsProperties.DisconnectionCodeTick` | lib/cws/client.ts:50 | with a non-zero code C and message M, the tick emits exactly `close(C, M)` and no `error` after earlier tasks |
| `CwsProperties.ConnectionErrorTick` | lib/cws/client.ts:28-35 | a queued transport error makes the tick emit exactly one `error` with the fixed connection-error message |
| `CwsProperties.CompletionTick` | lib/cws/client.ts:142 | a queued completion makes the tick invoke the callback once, without an error |
| `CwsProperties.RunTasksOnlyDeferredKinds` | lib/cws/client.ts:28-52 | a tick only emits `error` and `close` and invokes completions without an error; it never emits `open`, `message`, `ping` or `pong` |
| `CwsProperties.ClosesMatchDisconnections` | lib/cws/client.ts:37-54 | a tick emits exactly one `close` per queued disconnection, and the error path adds none |
| `CwsProperties.ClientRoundTrip` | lib/cws/client.ts:10-155 | connect, open, message "hi", local `close(1001, 'bye')`, engine disconnection, tick: observes exactly `open`, `message('hi')`, `close(1001, 'bye')`; ends CLOSED; the engine sees connect, one close, clear user data |
| `CwsProperties.ServerAccept` | lib/cws/client.ts:69-104 | a server socket built with a handle is OPEN at once, with no `open` event and no engine call |
| `CwsProperties.MalformedFrame` | lib/cws/client.ts:37-54 | a falsy-code disconnection makes the socket CLOSED at once, with only `open` observed; after the tick, exactly `open`, `error`, `close(1006, '')` |
| `CwsProperties.OperationsAfterClose` | lib/cws/client.ts:37-155 | after a disconnection with any status code, falsy or not, and its tick, exactly one `close` has been observed and the socket is CLOSED; and ping, close, terminate and send add no engine call, event or task; only send's callback runs, at once, with "Not opened" |
| `CwsProperties.CloseTwice` | lib/cws/client.ts:145-155 | a `close()` with no arguments on an open server socket makes exactly one engine close, with code 1000; a repeated close and a terminate add nothing; no event is emitted |
| `CwsProperties.TerminateTwice` | lib/cws/client.ts:145-149 | terminate on an open client socket makes exactly one engine terminate; repeating it adds nothing; no `close` event is emitted |
| `CwsProperties.SendCompletionIsDeferred` | lib/cws/client.ts:138-143 | a send on an open socket invokes nothing when it is made or when the engine flushes; the callback runs once, on the next tick |
| `CwsProperties.ErrorKeepsHandle` | lib/cws/client.ts:28-35 | after a transport error the socket is still OPEN and nothing is emitted at once; the tick emits one `error` |

## Left out

- CwsClient.WebSocket.Close: an explicit `null` code is passed to the engine unchanged in the source (the default parameter replaces only `undefined`). The model cannot express it: `None` means omitted and gives 1000.
- The native engine (group creation, framing, TLS, payload limits): a foreign binding. It appears only as the `engineCalls` log and the callback entry points.
- `native.getUserData`: the engine's handle → object association. Each callback instead receives the socket the association would give.
- `native.getAddress`, the `upgradeReq` address fields, and the `_socket` and `remoteAddress` getters (`client.ts:72-76`, `84-100`): they only forward engine address lookups. For the same reason the constructor's address lookup is not in `engineCalls`.
- The `onopen`/`onclose`/`onerror`/`onmessage` setters and the `on` overloads (`client.ts:107-131`): pure delegation to the event emitter. The emitter's listener storage lives in `../emitter`, which is not part of this model, so emission is an append to `trace`.
- The field initializer `external = noop` (`client.ts:65`): the constructor overwrites it before anything can observe it.
- `OPEN`, `CLOSED` and `executeOn` are mutable public instance fields in the source. Here `OPEN` and `CLOSED` are constants, and `executeOn` is a `const` field set by the constructor. A caller that reassigns them is not modelled.
- The local `webSocket = null` assignments in the disconnection task (`client.ts:48`, `51`): they only drop a closure's reference and have no observable effect.
- Real `process.nextTick` scheduling: the process-wide queue is kept per socket, so the order of ticks across sockets is not modelled. Tasks queued while a tick runs are not modelled either; none of the modelled tasks queue more work.
- A `NaN` status code, which is also falsy in JavaScript: only `undefined` and `0` are modelled.
- `send`'s `options.compress` is passed through as an `Option<bool>`; compress values that are neither booleans nor `undefined` are not modelled.
- At most one `close` per socket overall: this depends on the engine reporting a disconnection at most once. `ClosesMatchDisconnections` states what the model guarantees given that.
- A socket is CLOSED after its `close` event only while the engine does not fire a connection for it again. If the engine did, `OnConnection` would store the new handle and the socket would be OPEN, in the model as in the source. The engine is not expected to do that, but nothing in this file prevents it.
- The server group's callbacks are not in this file, so server-role sockets receive no engine callbacks in this model.
- The open-before-data and open-before-close orderings depend on the engine, which fires the callbacks. The model, like the source, lets a `close` be emitted with no `open` before it if the engine reports a disconnection first. These orderings are shown only in the scenarios.
