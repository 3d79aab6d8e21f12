/** The WebSocket front of the server: the process-wide single API object,
    the server start/stop guards, and the per-connection receive loop with its
    cleanup. */
module WebSocketApi {
  import opened Wrappers
  import opened Text
  import opened Sessions
  import opened MessageHandling

  /** What one `websocket.recv()` produced. */
  datatype RecvEvent =
    | Received(raw: string)         // the text of a frame
    | ClosedOk                      // ConnectionClosedOK: the client closed normally
    | ClosedError(reason: string)   // ConnectionClosedError
    | Failed(text: string)          // any other exception, by its message

  /** What `json.loads` made of a non-empty frame. */
  datatype Decoded = Malformed | Decoded(frame: Frame)

  const InvalidFormat: string := "Invalid message format"
  const NoCloseFrame: string := "no close frame received or sent"
  const CoreRequired: string := "Core services must be provided for initialization"

  /** Whether an event makes the loop `break`: either kind of connection
      close, or another exception whose text mentions the missing close frame. */
  predicate EndsLoop(ev: RecvEvent) {
    ev.ClosedOk? || ev.ClosedError? || (ev.Failed? && Contains(ev.text, NoCloseFrame))
  }

  /** The observable state of a receive loop: the frames it sent, the decoded
      frames it handed to `process_message` (in order), and whether it broke out. */
  datatype LoopState = LoopState(sent: seq<OutFrame>, handled: seq<Frame>, ended: bool)

  /** One iteration of the loop on one event, for a session that exists. */
  function Step(st: LoopState, ev: RecvEvent, sessionId: string,
                decode: string -> Decoded, backend: (string, string) -> BackendReply): LoopState
  {
    if st.ended then st
    else match ev
      case Received(raw) =>
        if raw == "" then st
        else (match decode(raw)
          case Malformed => st.(sent := st.sent + [ErrorFrame(InvalidFormat, sessionId)])
          case Decoded(f) =>
            st.(sent := st.sent + ProcessReply(f, sessionId, true, backend), handled := st.handled + [f]))
      case _ => if EndsLoop(ev) then st.(ended := true) else st
  }

  /** The loop run over a sequence of received events. */
  function Run(events: seq<RecvEvent>, sessionId: string,
               decode: string -> Decoded, backend: (string, string) -> BackendReply): LoopState
  {
    if events == [] then LoopState([], [], false)
    else Step(Run(events[..|events| - 1], sessionId, decode, backend), events[|events| - 1], sessionId, decode, backend)
  }

  /** The prompts that the handed-on frames add to the history, in order. */
  function Prompts(frames: seq<Frame>): seq<string> {
    if frames == [] then []
    else
      var f := frames[|frames| - 1];
      Prompts(frames[..|frames| - 1]) + (if f.message.Some? then [PromptOf(f.message.value, f.files)] else [])
  }

  /** Once the loop has broken out, later events change nothing. */
  lemma {:induction false} RunStaysEnded(events: seq<RecvEvent>, k: nat, sessionId: string,
                                         decode: string -> Decoded, backend: (string, string) -> BackendReply)
    requires k <= |events| && Run(events[..k], sessionId, decode, backend).ended
    ensures Run(events, sessionId, decode, backend) == Run(events[..k], sessionId, decode, backend)
    decreases |events| - k
  {
    if k < |events| {
      assert events[..k + 1][..k] == events[..k];
      RunStaysEnded(events, k + 1, sessionId, decode, backend);
    } else {
      assert events[..k] == events;
    }
  }

  /** An empty frame sends nothing, hands nothing on and keeps the loop going. */
  lemma EmptyFrameIgnored(events: seq<RecvEvent>, sessionId: string,
                          decode: string -> Decoded, backend: (string, string) -> BackendReply)
    ensures Run(events + [Received("")], sessionId, decode, backend) == Run(events, sessionId, decode, backend)
  {
    assert (events + [Received("")])[..|events|] == events;
  }

  /** A frame that is not JSON sends exactly one "Invalid message format"
      error frame and the loop goes on. */
  lemma MalformedFrameOneError(events: seq<RecvEvent>, raw: string, sessionId: string,
                               decode: string -> Decoded, backend: (string, string) -> BackendReply)
    requires raw != "" && decode(raw) == Malformed
    requires !Run(events, sessionId, decode, backend).ended
    ensures var before := Run(events, sessionId, decode, backend);
      Run(events + [Received(raw)], sessionId, decode, backend)
        == LoopState(before.sent + [ErrorFrame(InvalidFormat, sessionId)], before.handled, false)
  {
    assert (events + [Received(raw)])[..|events|] == events;
  }

  /** A failure other than a close keeps the loop going unless its text
      mentions the missing close frame. */
  lemma OtherFailureContinues(events: seq<RecvEvent>, text: string, sessionId: string,
                              decode: string -> Decoded, backend: (string, string) -> BackendReply)
    requires !Run(events, sessionId, decode, backend).ended
    ensures Run(events + [Failed(text)], sessionId, decode, backend).ended <==> Contains(text, NoCloseFrame)
  {
    assert (events + [Failed(text)])[..|events|] == events;
  }

  /** The session store and the connection table as a loop that has handed
      on `handled` leaves them, starting from `sessions0` and `connections0`
      with the connection's session already created. */
  ghost predicate Reflects(manager: SessionManager, handler: MessageHandler,
                           sessions0: map<string, Session>, connections0: map<string, Connection>,
                           sessionId: string, ws: Connection, handled: seq<Frame>)
    reads manager, handler
  {
    && manager.sessions == sessions0[sessionId := Session(sessionId, Prompts(handled))]
    && handler.activeConnections ==
         if Prompts(handled) == [] then connections0 else connections0[sessionId := ws]
  }

  /** The body of the receive loop on one event. */
  method HandleEvent(manager: SessionManager, handler: MessageHandler,
                     ghost sessions0: map<string, Session>, ghost connections0: map<string, Connection>,
                     ws: Connection, sessionId: string, st: LoopState, ev: RecvEvent,
                     decode: string -> Decoded, backend: (string, string) -> BackendReply)
    returns (r: LoopState)
    requires !st.ended && manager.Valid() && handler.sessionManager == manager
    requires Reflects(manager, handler, sessions0, connections0, sessionId, ws, st.handled)
    modifies manager, handler
    ensures r == Step(st, ev, sessionId, decode, backend)
    ensures manager.Valid()
    ensures Reflects(manager, handler, sessions0, connections0, sessionId, ws, r.handled)
  {
    r := st;
    match ev {
      case Received(raw) =>
        if raw != "" {
          match decode(raw) {
            case Malformed =>
              r := st.(sent := st.sent + [ErrorFrame(InvalidFormat, sessionId)]);
            case Decoded(f) =>
              var out := handler.ProcessMessage(ws, sessionId, f, backend);
              r := st.(sent := st.sent + out, handled := st.handled + [f]);
              assert (st.handled + [f])[..|st.handled|] == st.handled;
              if f.message.None? {
                assert Prompts(r.handled) == Prompts(st.handled) + [];
                assert Prompts(st.handled) + [] == Prompts(st.handled);
              } else {
                assert sessionId in old(manager.sessions);
                assert old(manager.sessions)[sessionId].messages == Prompts(st.handled);
              }
          }
        }
      case ClosedOk =>
        r := st.(ended := true);
      case ClosedError(_) =>
        r := st.(ended := true);
      case Failed(text) =>
        if Contains(text, NoCloseFrame) {
          r := st.(ended := true);
        }
    }
  }

  /** The object holding the server's services (`core`). */
  datatype Core = Core(sessionManager: SessionManager)

  /** The started WebSocket server; `open` turns false once it is closed. */
  datatype Server = Server(open: bool)

  class WebSocketAPI {
    var initialized: bool
    var core: Option<Core>
    var messageHandler: Option<MessageHandler>
    var server: Option<Server>

    /** `object.__new__`: a fresh instance not yet initialised. */
    constructor Allocate()
      ensures !initialized && core == None && messageHandler == None && server == None
    {
      initialized := false;
      core := None;
      messageHandler := None;
      server := None;
    }

    /** The state every initialised instance is in. */
    ghost predicate Ready()
      reads this
    {
      && initialized && core.Some? && messageHandler.Some?
      && messageHandler.value.sessionManager == core.value.sessionManager
    }

    /** `__init__`: does nothing on an initialised instance; otherwise needs a
        core, from whose session manager it builds the message handler. */
    method Init(core: Option<Core>) returns (r: Outcome<string>)
      modifies this
      ensures old(initialized) ==> r == Pass && unchanged(this)
      ensures !old(initialized) && core.None? ==> r == Fail(CoreRequired) && unchanged(this)
      ensures !old(initialized) && core.Some? ==>
                && r == Pass && Ready() && this.core == core && server == None
                && fresh(messageHandler.value) && messageHandler.value.activeConnections == map[]
    {
      if initialized {
        return Pass;
      }
      if core.None? {
        return Fail(CoreRequired);
      }
      this.core := core;
      var handler := new MessageHandler(core.value.sessionManager);
      messageHandler := Some(handler);
      server := None;
      initialized := true;
      r := Pass;
    }

    /** `_initialize_server`: starts a server only when none was ever set. */
    method InitializeServer()
      modifies this
      ensures old(server).Some? ==> server == old(server)
      ensures old(server).None? ==> server == Some(Server(true))
      ensures initialized == old(initialized) && core == old(core) && messageHandler == old(messageHandler)
    {
      if server.None? {
        server := Some(Server(true));
      }
    }

    /** `shutdown`: closes the server if there is one; the closed server stays
        set, so a later `_initialize_server` does not start another. */
    method Shutdown()
      modifies this
      ensures old(server).None? ==> server == None
      ensures old(server).Some? ==> server == Some(Server(false))
      ensures initialized == old(initialized) && core == old(core) && messageHandler == old(messageHandler)
    {
      if server.Some? {
        server := Some(Server(false));
      }
    }

    /** `websocket_handler`: creates the connection's session before reading
        anything, runs the receive loop over `inbox`, and on leaving the loop
        closes the session and then unregisters the connection. When `inbox`
        runs out without an event that ends the loop, the handler is still
        waiting in `recv` and nothing has been cleaned up. */
    method WebsocketHandler(ws: Connection, uuid: string, inbox: seq<RecvEvent>,
                            decode: string -> Decoded, backend: (string, string) -> BackendReply)
      returns (sessionId: string, result: LoopState)
      requires Ready()
      requires core.value.sessionManager.Valid() && uuid !in core.value.sessionManager.sessions
      modifies core.value.sessionManager, messageHandler.value
      ensures sessionId == uuid
      ensures result == Run(inbox, sessionId, decode, backend)
      ensures var manager, handler := core.value.sessionManager, messageHandler.value;
        && manager.Valid()
        && (result.ended ==>
              && manager.sessions == old(manager.sessions)
              && handler.activeConnections == old(handler.activeConnections) - {sessionId})
        && (!result.ended ==>
              && manager.sessions == old(manager.sessions)[sessionId := Session(sessionId, Prompts(result.handled))]
              && handler.activeConnections ==
                   if Prompts(result.handled) == [] then old(handler.activeConnections)
                   else old(handler.activeConnections)[sessionId := ws])
    {
      var manager, handler := core.value.sessionManager, messageHandler.value;
      sessionId := manager.CreateSession(uuid);
      result := LoopState([], [], false);
      var i := 0;
      while i < |inbox| && !result.ended
        invariant 0 <= i <= |inbox|
        invariant result == Run(inbox[..i], sessionId, decode, backend)
        invariant manager.Valid() && handler.sessionManager == manager
        invariant Reflects(manager, handler, old(manager.sessions), old(handler.activeConnections),
                           sessionId, ws, result.handled)
      {
        assert inbox[..i + 1][..i] == inbox[..i];
        result := HandleEvent(manager, handler, old(manager.sessions), old(handler.activeConnections),
                              ws, sessionId, result, inbox[i], decode, backend);
        i := i + 1;
      }
      if result.ended {
        RunStaysEnded(inbox, i, sessionId, decode, backend);
        var closed := manager.CloseSession(sessionId);
        if closed.Pass? {
          handler.UnregisterConnection(sessionId);
        }
      } else {
        assert inbox[..i] == inbox;
      }
    }
  }

  /** The class attribute `_instance` of `WebSocketAPI`. */
  class ApiClass {
    var instance: WebSocketAPI?

    constructor ()
      ensures instance == null
    {
      instance := null;
    }

    /** `WebSocketAPI(core)`: `__new__` hands out the one instance, creating it
        on first use, then `__init__` runs on it. */
    method Construct(core: Option<Core>) returns (r: Result<WebSocketAPI, string>)
      modifies this, instance
      ensures instance != null
      ensures old(instance) != null ==> instance == old(instance)
      ensures old(instance) == null ==> fresh(instance)
      ensures old(instance) != null && old(instance.initialized) ==>
                r == Ok(instance) && unchanged(instance)
      ensures (old(instance) == null || !old(instance.initialized)) && core.None? ==>
                r == Err(CoreRequired) && !instance.initialized
      ensures (old(instance) == null || !old(instance.initialized)) && core.Some? ==>
                r == Ok(instance) && instance.Ready() && instance.core == core && instance.server == None
    {
      if instance == null {
        instance := new WebSocketAPI.Allocate();
      }
      var api := instance;
      var init := api.Init(core);
      if init.Fail? {
        return Err(init.error);
      }
      r := Ok(api);
    }
  }

  /** Constructing the API a second time with another core hands back the
      same instance, still bound to the first core. */
  method SecondConstructionIgnoresCore(api: ApiClass, first: Core, second: Core)
    returns (a: WebSocketAPI, b: WebSocketAPI)
    requires api.instance == null
    modifies api
    ensures a == b && a.core == Some(first) && a.Ready()
  {
    var r1 := api.Construct(Some(first));
    a := r1.value;
    var r2 := api.Construct(Some(second));
    b := r2.value;
  }

  /** After `shutdown`, `_initialize_server` does not start a new server. */
  method ShutdownIsFinal(api: WebSocketAPI)
    modifies api
    ensures api.server.Some? && !api.server.value.open
  {
    api.InitializeServer();
    api.Shutdown();
    api.InitializeServer();
  }
}
