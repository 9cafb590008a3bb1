/**
 * Properties of the cWs client lifecycle: what a tick of the deferred queue
 * emits, and the lifecycle scenarios that follow from the contracts of the
 * socket's operations and of the engine callbacks.
 */
module CwsProperties {
  import opened Wrappers
  import opened CwsClient

  /** Draining two queues one after the other observes both, in order. */
  lemma {:induction false} RunTasksAppend(a: seq<Task>, b: seq<Task>)
    ensures RunTasks(a + b) == RunTasks(a) + RunTasks(b)
  {
    if a == [] {
      assert a + b == b;
    } else {
      assert (a + b)[1..] == a[1..] + b;
      RunTasksAppend(a[1..], b);
    }
  }

  /**
   * A disconnection with a falsy status code, whatever message the engine
   * gave, makes the next tick emit exactly `error` then `close(1006, '')`
   * after whatever was queued before it.
   */
  lemma {:induction false} DisconnectionFalsyTick(q: seq<Task>, code: Option<int>, message: string)
    requires IsFalsy(code)
    ensures RunTasks(q + [EmitDisconnection(code, message)]) ==
      RunTasks(q) + [Emitted(ErrorEvent(INVALID_STATUS_ERROR)), Emitted(CloseEvent(ABNORMAL_CLOSURE, ""))]
  {
    RunTasksAppend(q, [EmitDisconnection(code, message)]);
  }

  /**
   * A disconnection with a non-zero status code `c` and message `m` makes the
   * next tick emit exactly `close(c, m)` and no `error`, after whatever was
   * queued before it.
   */
  lemma {:induction false} DisconnectionCodeTick(q: seq<Task>, c: int, m: string)
    requires c != 0
    ensures RunTasks(q + [EmitDisconnection(Some(c), m)]) == RunTasks(q) + [Emitted(CloseEvent(c, m))]
  {
    RunTasksAppend(q, [EmitDisconnection(Some(c), m)]);
  }

  /** A transport error makes the next tick emit exactly one `error`, after what was queued. */
  lemma {:induction false} ConnectionErrorTick(q: seq<Task>)
    ensures RunTasks(q + [EmitConnectionError]) == RunTasks(q) + [Emitted(ErrorEvent(CONNECTION_ERROR))]
  {
    RunTasksAppend(q, [EmitConnectionError]);
  }

  /** A flushed send makes the next tick invoke its callback once, without an error. */
  lemma {:induction false} CompletionTick(q: seq<Task>, cb: Callback)
    ensures RunTasks(q + [InvokeCompletion(cb)]) == RunTasks(q) + [Invoked(cb, None)]
  {
    RunTasksAppend(q, [InvokeCompletion(cb)]);
  }

  /** What a tick may produce: an `error`, a `close`, or an error-free completion. */
  predicate IsDeferredKind(o: Observed) {
    match o
    case Emitted(e) => e.ErrorEvent? || e.CloseEvent?
    case Invoked(_, err) => err.None?
  }

  /**
   * Only `error`, `close` and completion callbacks are deferred: a tick never
   * emits `open`, `message`, `ping` or `pong`, and never reports "Not opened".
   */
  lemma {:induction false} RunTasksOnlyDeferredKinds(q: seq<Task>)
    ensures forall i :: 0 <= i < |RunTasks(q)| ==> IsDeferredKind(RunTasks(q)[i])
  {
    if q != [] {
      RunTasksOnlyDeferredKinds(q[1..]);
      var head, rest := TaskEffect(q[0]), RunTasks(q[1..]);
      assert RunTasks(q) == head + rest;
      forall i | 0 <= i < |RunTasks(q)| ensures IsDeferredKind(RunTasks(q)[i]) {
        if i >= |head| {
          assert RunTasks(q)[i] == rest[i - |head|];
        }
      }
    }
  }

  /** Number of `close` events in `obs`. */
  function Closes(obs: seq<Observed>): nat {
    if obs == [] then 0
    else (if obs[0].Emitted? && obs[0].event.CloseEvent? then 1 else 0) + Closes(obs[1..])
  }

  /** Number of deferred disconnections in `q`. */
  function Disconnections(q: seq<Task>): nat {
    if q == [] then 0
    else (if q[0].EmitDisconnection? then 1 else 0) + Disconnections(q[1..])
  }

  lemma {:induction false} ClosesAppend(a: seq<Observed>, b: seq<Observed>)
    ensures Closes(a + b) == Closes(a) + Closes(b)
  {
    if a == [] {
      assert a + b == b;
    } else {
      assert (a + b)[1..] == a[1..] + b;
      ClosesAppend(a[1..], b);
    }
  }

  /**
   * A tick emits exactly one `close` per queued disconnection, so a socket
   * whose engine reports one disconnection sees at most one `close`.
   */
  lemma {:induction false} ClosesMatchDisconnections(q: seq<Task>)
    ensures Closes(RunTasks(q)) == Disconnections(q)
  {
    if q != [] {
      ClosesMatchDisconnections(q[1..]);
      ClosesAppend(TaskEffect(q[0]), RunTasks(q[1..]));
      match q[0]
      case EmitConnectionError =>
      case InvokeCompletion(_) =>
      case EmitDisconnection(code, _) =>
        if IsFalsy(code) {
          var e := TaskEffect(q[0]);
          assert Closes(e) == Closes(e[1..]);
        }
    }
  }

  /**
   * Client round trip: connect to `url`, the engine opens handle `h`, a
   * message "hi" arrives, the application closes with 1001 "bye", the engine
   * reports the disconnection and the next tick runs.
   */
  method ClientRoundTrip(url: string, h: Handle)
    returns (observed: seq<Observed>, state: int, calls: seq<EngineCall>)
    ensures observed ==
      [Emitted(OpenEvent), Emitted(MessageEvent(Str("hi"))), Emitted(CloseEvent(1001, "bye"))]
    ensures state == CLOSED
    ensures calls ==
      [EngineConnect(url), EngineClose(Client, h, 1001, Some("bye")), EngineClearUserData(h)]
  {
    var ws := new WebSocket(url, None, false);
    OnConnection(ws, h);
    OnMessage(ws, Str("hi"));
    ws.Close(Some(1001), Some("bye"));
    OnDisconnection(ws, h, Some(1001), "bye");
    ws.RunTick();
    observed, state, calls := ws.trace, ws.ReadyState(), ws.engineCalls;
  }

  /**
   * Server accept: a socket built with its handle is OPEN at once, has made
   * no engine call and has emitted nothing.
   */
  method ServerAccept(url: string, h: Handle)
    returns (state: int, role: Role, observed: seq<Observed>, calls: seq<EngineCall>)
    ensures state == OPEN && role == Server
    ensures observed == [] && calls == []
  {
    var ws := new WebSocket(url, Some(h), true);
    state, role, observed, calls := ws.ReadyState(), ws.executeOn, ws.trace, ws.engineCalls;
  }

  /**
   * Malformed frame: an open client socket whose engine reports a falsy
   * status code is CLOSED at once and sees exactly `open`, `error`,
   * `close(1006, '')` once the tick has run.
   */
  method MalformedFrame(url: string, h: Handle, code: Option<int>, message: string)
    returns (stateBeforeTick: int, beforeTick: seq<Observed>, observed: seq<Observed>)
    requires IsFalsy(code)
    ensures stateBeforeTick == CLOSED
    ensures beforeTick == [Emitted(OpenEvent)]
    ensures observed ==
      [Emitted(OpenEvent), Emitted(ErrorEvent(INVALID_STATUS_ERROR)), Emitted(CloseEvent(ABNORMAL_CLOSURE, ""))]
  {
    var ws := new WebSocket(url, None, false);
    OnConnection(ws, h);
    OnDisconnection(ws, h, code, message);
    stateBeforeTick, beforeTick := ws.ReadyState(), ws.trace;
    ws.RunTick();
    observed := ws.trace;
  }

  /**
   * After the `close` event (with any status code, falsy or not) the socket
   * is CLOSED and every outbound operation is a no-op: no engine call, no
   * event, no task; only `send`'s callback runs, at once, with "Not opened".
   */
  method OperationsAfterClose(url: string, h: Handle, code: Option<int>, m: string,
                              msg: Payload, options: Option<SendOptions>, cb: Callback)
    returns (state: int, observed: seq<Observed>, calls: seq<EngineCall>, pending: seq<Task>)
    ensures state == CLOSED
    ensures observed ==
      [Emitted(OpenEvent)] + TaskEffect(EmitDisconnection(code, m)) + [Invoked(cb, Some(NOT_OPENED))]
    ensures Closes(observed) == 1
    ensures calls == [EngineConnect(url), EngineClearUserData(h)]
    ensures pending == []
  {
    var ws := new WebSocket(url, None, false);
    OnConnection(ws, h);
    OnDisconnection(ws, h, code, m);
    ws.RunTick();
    ws.Ping(Some(msg));
    ws.Close(None, None);
    ws.Terminate();
    ws.Send(msg, options, Some(cb));
    state, observed, calls, pending := ws.ReadyState(), ws.trace, ws.engineCalls, ws.deferred;
    var effect := TaskEffect(EmitDisconnection(code, m));
    ClosesAppend([Emitted(OpenEvent)] + effect, [Invoked(cb, Some(NOT_OPENED))]);
    ClosesAppend([Emitted(OpenEvent)], effect);
    assert Closes([Invoked(cb, Some(NOT_OPENED))]) == 0;
    assert Closes([Emitted(OpenEvent)]) == 0;
    if IsFalsy(code) {
      assert Closes(effect) == Closes(effect[1..]);
    }
  }

  /**
   * Local close is idempotent: on an open server socket, `close()` with no
   * arguments makes one engine close with code 1000, and a second `close` or
   * a `terminate` adds nothing. Neither emits a `close` event.
   */
  method CloseTwice(url: string, h: Handle)
    returns (state: int, observed: seq<Observed>, calls: seq<EngineCall>)
    ensures state == CLOSED
    ensures observed == []
    ensures calls == [EngineClose(Server, h, NORMAL_CLOSURE, None)]
  {
    var ws := new WebSocket(url, Some(h), true);
    ws.Close(None, None);
    ws.Close(Some(4000), Some("again"));
    ws.Terminate();
    state, observed, calls := ws.ReadyState(), ws.trace, ws.engineCalls;
  }

  /**
   * `terminate` on an open socket makes one engine terminate; repeating it
   * adds nothing, and neither call emits a `close` event.
   */
  method TerminateTwice(url: string, h: Handle)
    returns (state: int, observed: seq<Observed>, calls: seq<EngineCall>)
    ensures state == CLOSED
    ensures observed == [Emitted(OpenEvent)]
    ensures calls == [EngineConnect(url), EngineTerminate(Client, h)]
  {
    var ws := new WebSocket(url, None, false);
    OnConnection(ws, h);
    ws.Terminate();
    ws.Terminate();
    state, observed, calls := ws.ReadyState(), ws.trace, ws.engineCalls;
  }

  /**
   * A `send` on an open socket does not call its callback inline: the
   * callback runs only on the tick after the engine has flushed the frame.
   */
  method SendCompletionIsDeferred(url: string, h: Handle, msg: Payload, cb: Callback)
    returns (afterSend: seq<Observed>, afterFlush: seq<Observed>, afterTick: seq<Observed>,
             calls: seq<EngineCall>)
    ensures afterSend == [] && afterFlush == []
    ensures afterTick == [Invoked(cb, None)]
    ensures calls == [EngineSend(Server, h, Some(msg), SelectOpcode(msg, None), Some(cb), None)]
  {
    var ws := new WebSocket(url, Some(h), true);
    ws.Send(msg, None, Some(cb));
    afterSend := ws.trace;
    assert ws.engineCalls[0].onFlush == Some(cb);
    OnFlush(ws, cb);
    afterFlush := ws.trace;
    ws.RunTick();
    afterTick, calls := ws.trace, ws.engineCalls;
  }

  /**
   * A transport error keeps the socket OPEN and emits nothing at once; the
   * next tick emits one `error`.
   */
  method ErrorKeepsHandle(url: string, h: Handle)
    returns (stateAfterError: int, beforeTick: seq<Observed>, afterTick: seq<Observed>)
    ensures stateAfterError == OPEN
    ensures beforeTick == [Emitted(OpenEvent)]
    ensures afterTick == [Emitted(OpenEvent), Emitted(ErrorEvent(CONNECTION_ERROR))]
  {
    var ws := new WebSocket(url, None, false);
    OnConnection(ws, h);
    OnError(ws);
    stateAfterError, beforeTick := ws.ReadyState(), ws.trace;
    ws.RunTick();
    afterTick := ws.trace;
  }
}
