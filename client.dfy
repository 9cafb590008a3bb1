/**
 * The per-socket connection lifecycle of the cWs client: a `WebSocket` object
 * that owns at most one engine connection handle, the engine callbacks that
 * turn handle-keyed engine notifications into events on that object, and the
 * outbound operations `ping`, `send`, `terminate` and `close`.
 *
 * The native engine is seen only through the calls made into it (the
 * `engineCalls` log) and through the callback entry points below. Event
 * emission appends to `trace`; `process.nextTick` appends to the FIFO queue
 * `deferred`, which `RunTick` drains.
 */
module CwsClient {
  import opened Wrappers

  /** The value `readyState` reports while a handle is present. */
  const OPEN: int := 1
  /** The value `readyState` reports while no handle is present. */
  const CLOSED: int := 0

  /** Close code used by `close` when the caller gives none. */
  const NORMAL_CLOSURE: int := 1000
  /** Close code synthesised when the engine reports a falsy status code. */
  const ABNORMAL_CLOSURE: int := 1006

  const CONNECTION_ERROR: string := "cWs client connection error"
  const INVALID_STATUS_ERROR: string := "cWs invalid status code or invalid UTF-8 sequence"
  const NOT_OPENED: string := "Not opened"

  /** An opaque connection handle issued by the engine. */
  datatype Handle = Handle(id: nat)

  /** A message payload: a JavaScript string or a Buffer of bytes. */
  datatype Payload = Str(text: string) | Buf(bytes: seq<bv8>)

  /** A completion callback supplied by the application, known by its identity. */
  datatype Callback = Callback(id: nat)

  /** The fields of `SendOptions` that `send` reads; `None` is `undefined`. */
  datatype SendOptions = SendOptions(binary: Option<bool>, compress: Option<bool>)

  /** Which engine binding the socket's outbound calls go to (`executeOn`). */
  datatype Role = Client | Server

  /** The frame opcodes handed to the engine. */
  datatype Opcode = TextFrame | BinaryFrame | PingFrame

  /**
   * One call into the native engine. In `EngineSend`, `onFlush == Some(cb)`
   * stands for the wrapper that defers `cb` to the next tick, and `None` for
   * `null`.
   */
  datatype EngineCall =
    | EngineConnect(url: string)
    | EngineSend(role: Role, handle: Handle, message: Option<Payload>, opcode: Opcode,
                 onFlush: Option<Callback>, compress: Option<bool>)
    | EngineClose(role: Role, handle: Handle, code: int, reason: Option<string>)
    | EngineTerminate(role: Role, handle: Handle)
    | EngineClearUserData(handle: Handle)

  /** An event emitted on the socket. */
  datatype Event =
    | OpenEvent
    | MessageEvent(message: Payload)
    | PingEvent(message: Payload)
    | PongEvent(message: Payload)
    | ErrorEvent(description: string)
    | CloseEvent(code: int, reason: string)

  /** What the application observes: an emitted event, or a callback being invoked. */
  datatype Observed =
    | Emitted(event: Event)
    | Invoked(callback: Callback, error: Option<string>)

  /** A task waiting in the `process.nextTick` queue. */
  datatype Task =
    | EmitConnectionError
    | EmitDisconnection(code: Option<int>, message: string)
    | InvokeCompletion(callback: Callback)

  /** JavaScript falsiness of the engine's status code (`undefined` or `0`). */
  predicate IsFalsy(code: Option<int>): (falsy: bool)
    ensures falsy <==> code.GetOr(0) == 0
  {
    code.None? || code.value == 0
  }

  /**
   * The opcode `send` uses: text when the options say `binary === false` or
   * the message is a string, binary otherwise.
   */
  function SelectOpcode(message: Payload, options: Option<SendOptions>): (op: Opcode)
    ensures op == TextFrame <==>
      (options.Some? && options.value.binary == Some(false)) || message.Str?
    ensures op == BinaryFrame <==>
      message.Buf? && (options.None? || options.value.binary != Some(false))
    ensures op != PingFrame
    ensures message.Buf? && options.None? ==> op == BinaryFrame
    ensures message.Str? ==> op == TextFrame
  {
    var explicitText := if options.None? then false else options.value.binary == Some(false);
    var useTextOpcode := explicitText || message.Str?;
    if useTextOpcode then TextFrame else BinaryFrame
  }

  /** What running one deferred task makes the application observe. */
  function TaskEffect(t: Task): (obs: seq<Observed>)
    ensures 1 <= |obs| <= 2
    ensures t.EmitDisconnection? <==> obs[|obs| - 1].Emitted? && obs[|obs| - 1].event.CloseEvent?
    ensures |obs| == 2 <==> t.EmitDisconnection? && IsFalsy(t.code)
    ensures forall i :: 0 <= i < |obs| - 1 ==> obs[i] == Emitted(ErrorEvent(INVALID_STATUS_ERROR))
    ensures t.EmitDisconnection? && !IsFalsy(t.code) ==> obs == [Emitted(CloseEvent(t.code.value, t.message))]
  {
    match t
    case EmitConnectionError => [Emitted(ErrorEvent(CONNECTION_ERROR))]
    case EmitDisconnection(code, message) =>
      if IsFalsy(code) then
        [Emitted(ErrorEvent(INVALID_STATUS_ERROR)), Emitted(CloseEvent(ABNORMAL_CLOSURE, ""))]
      else
        [Emitted(CloseEvent(code.value, message))]
    case InvokeCompletion(cb) => [Invoked(cb, None)]
  }

  /** What draining the queue `q`, front first, makes the application observe. */
  function RunTasks(q: seq<Task>): (obs: seq<Observed>)
    ensures |q| <= |obs| <= 2 * |q|
    ensures q != [] ==> |TaskEffect(q[0])| <= |obs| && obs[..|TaskEffect(q[0])|] == TaskEffect(q[0])
  {
    if q == [] then [] else TaskEffect(q[0]) + RunTasks(q[1..])
  }

  class WebSocket {
    /** The connection handle; `None` is the source's `null` / `undefined`. */
    var external: Option<Handle>
    /** The engine binding outbound calls go to; set at construction and never reassigned. */
    const executeOn: Role
    /** Events emitted and callbacks invoked, in order. */
    var trace: seq<Observed>
    /** The `process.nextTick` queue, front first. */
    var deferred: seq<Task>
    /** Calls made into the engine on behalf of this socket, in order. */
    var engineCalls: seq<EngineCall>

    /**
     * A server-side socket receives its handle and makes no engine call; a
     * client socket asks the engine to connect to `url`.
     */
    constructor (url: string, external: Option<Handle>, isServer: bool)
      ensures this.external == external
      ensures executeOn == (if isServer then Server else Client)
      ensures engineCalls == (if isServer then [] else [EngineConnect(url)])
      ensures trace == [] && deferred == []
    {
      this.external := external;
      executeOn := if isServer then Server else Client;
      trace := [];
      deferred := [];
      engineCalls := [];
      new;
      if !isServer {
        engineCalls := engineCalls + [EngineConnect(url)];
      }
    }

    /** OPEN exactly while a handle is present, CLOSED otherwise. */
    function ReadyState(): (r: int)
      reads this
      ensures r == OPEN <==> external.Some?
      ensures r == CLOSED <==> external.None?
    {
      if external.Some? then OPEN else CLOSED
    }

    /** The emitter's `emit`: the event is appended to the trace. */
    method Emit(e: Event)
      modifies this`trace
      ensures trace == old(trace) + [Emitted(e)]
    {
      trace := trace + [Emitted(e)];
    }

    /** `process.nextTick`: the task joins the back of the queue. */
    method Defer(t: Task)
      modifies this`deferred
      ensures deferred == old(deferred) + [t]
    {
      deferred := deferred + [t];
    }

    /** A call into the native engine, appended to the call log. */
    method Call(e: EngineCall)
      modifies this`engineCalls
      ensures engineCalls == old(engineCalls) + [e]
    {
      engineCalls := engineCalls + [e];
    }

    /** Sends a ping frame on an open socket; does nothing on a closed one. */
    method Ping(message: Option<Payload>)
      modifies this`engineCalls
      ensures external.None? ==> engineCalls == old(engineCalls)
      ensures external.Some? ==>
        engineCalls == old(engineCalls) + [EngineSend(executeOn, external.value, message, PingFrame, None, None)]
    {
      if external.None? { return; }
      Call(EngineSend(executeOn, external.value, message, PingFrame, None, None));
    }

    /**
     * Sends `message` on an open socket, handing the engine a wrapper that
     * defers `cb`. On a closed socket makes no engine call and invokes `cb`
     * at once with the error "Not opened".
     */
    method Send(message: Payload, options: Option<SendOptions>, cb: Option<Callback>)
      modifies this`engineCalls, this`trace
      ensures external.None? ==> engineCalls == old(engineCalls)
      ensures external.None? ==>
        trace == old(trace) + (if cb.Some? then [Invoked(cb.value, Some(NOT_OPENED))] else [])
      ensures external.Some? ==> trace == old(trace)
      ensures external.Some? ==>
        engineCalls == old(engineCalls) +
          [EngineSend(executeOn, external.value, Some(message), SelectOpcode(message, options),
                      cb, if options.None? then None else options.value.compress)]
    {
      if external.None? {
        if cb.Some? {
          trace := trace + [Invoked(cb.value, Some(NOT_OPENED))];
        }
        return;
      }
      var opCode := SelectOpcode(message, options);
      var compress := if options.None? then None else options.value.compress;
      Call(EngineSend(executeOn, external.value, Some(message), opCode, cb, compress));
    }

    /** Destroys an open connection at once and drops the handle; no-op when closed. */
    method Terminate()
      modifies this`engineCalls, this`external
      ensures external == None
      ensures old(external).None? ==> engineCalls == old(engineCalls)
      ensures old(external).Some? ==>
        engineCalls == old(engineCalls) + [EngineTerminate(executeOn, old(external).value)]
    {
      if external.None? { return; }
      Call(EngineTerminate(executeOn, external.value));
      external := None;
    }

    /**
     * Asks the engine to close an open connection with `code` (1000 when not
     * given) and `reason`, then drops the handle; no-op when closed.
     */
    method Close(code: Option<int>, reason: Option<string>)
      modifies this`engineCalls, this`external
      ensures external == None
      ensures old(external).None? ==> engineCalls == old(engineCalls)
      ensures old(external).Some? ==>
        engineCalls == old(engineCalls) +
          [EngineClose(executeOn, old(external).value, code.GetOr(NORMAL_CLOSURE), reason)]
    {
      if external.None? { return; }
      Call(EngineClose(executeOn, external.value, code.GetOr(NORMAL_CLOSURE), reason));
      external := None;
    }

    /** Runs one deferred task. */
    method Execute(t: Task)
      modifies this`trace
      ensures trace == old(trace) + TaskEffect(t)
    {
      match t
      case EmitConnectionError =>
        Emit(ErrorEvent(CONNECTION_ERROR));
      case EmitDisconnection(code, message) =>
        if IsFalsy(code) {
          Emit(ErrorEvent(INVALID_STATUS_ERROR));
          Emit(CloseEvent(ABNORMAL_CLOSURE, ""));
        } else {
          Emit(CloseEvent(code.value, message));
        }
      case InvokeCompletion(cb) =>
        trace := trace + [Invoked(cb, None)];
    }

    /** Drains the `process.nextTick` queue front first. */
    method RunTick()
      modifies this`trace, this`deferred
      ensures deferred == []
      ensures trace == old(trace) + RunTasks(old(deferred))
    {
      while deferred != []
        invariant old(trace) + RunTasks(old(deferred)) == trace + RunTasks(deferred)
        decreases |deferred|
      {
        var t := deferred[0];
        deferred := deferred[1..];
        Execute(t);
      }
    }
  }

  // The engine callbacks, registered on the client group only: they are
  // only ever given client-role sockets. Each receives the socket the engine
  // associated with the handle (through its user data, or as an argument).

  /** The connection is open: store the handle and emit `open` at once. */
  method OnConnection(ws: WebSocket, newExternal: Handle)
    requires ws.executeOn == Client
    modifies ws`external, ws`trace
    ensures ws.external == Some(newExternal)
    ensures ws.ReadyState() == OPEN
    ensures ws.trace == old(ws.trace) + [Emitted(OpenEvent)]
  {
    ws.external := Some(newExternal);
    ws.Emit(OpenEvent);
  }

  /** A message frame arrived: emit `message` at once. */
  method OnMessage(ws: WebSocket, message: Payload)
    requires ws.executeOn == Client
    modifies ws`trace
    ensures ws.trace == old(ws.trace) + [Emitted(MessageEvent(message))]
  {
    ws.Emit(MessageEvent(message));
  }

  /** A ping frame arrived: emit `ping` at once. */
  method OnPing(ws: WebSocket, message: Payload)
    requires ws.executeOn == Client
    modifies ws`trace
    ensures ws.trace == old(ws.trace) + [Emitted(PingEvent(message))]
  {
    ws.Emit(PingEvent(message));
  }

  /** A pong frame arrived: emit `pong` at once. */
  method OnPong(ws: WebSocket, message: Payload)
    requires ws.executeOn == Client
    modifies ws`trace
    ensures ws.trace == old(ws.trace) + [Emitted(PongEvent(message))]
  {
    ws.Emit(PongEvent(message));
  }

  /** A transport error: defer an `error` event; the handle is kept. */
  method OnError(ws: WebSocket)
    requires ws.executeOn == Client
    modifies ws`deferred
    ensures ws.deferred == old(ws.deferred) + [EmitConnectionError]
  {
    ws.Defer(EmitConnectionError);
  }

  /**
   * The connection is gone: drop the handle, defer the `close` (preceded by
   * an `error` when the status code is falsy) and clear the engine's user data.
   */
  method OnDisconnection(ws: WebSocket, newExternal: Handle, code: Option<int>, message: string)
    requires ws.executeOn == Client
    modifies ws`external, ws`deferred, ws`engineCalls
    ensures ws.external == None
    ensures ws.ReadyState() == CLOSED
    ensures ws.deferred == old(ws.deferred) + [EmitDisconnection(code, message)]
    ensures ws.engineCalls == old(ws.engineCalls) + [EngineClearUserData(newExternal)]
  {
    ws.external := None;
    ws.Defer(EmitDisconnection(code, message));
    ws.Call(EngineClearUserData(newExternal));
  }

  /**
   * The wrapper `send` hands the engine as its flush callback: when the
   * engine invokes it, `cb` is deferred to the next tick. The engine only
   * invokes a wrapper it was given by an earlier send.
   */
  method OnFlush(ws: WebSocket, cb: Callback)
    requires exists i :: 0 <= i < |ws.engineCalls| && ws.engineCalls[i].EngineSend? && ws.engineCalls[i].onFlush == Some(cb)
    modifies ws`deferred
    ensures ws.deferred == old(ws.deferred) + [InvokeCompletion(cb)]
  {
    ws.Defer(InvokeCompletion(cb));
  }
}
