/** What the lifecycle and dispatch of WebSocketToXmppBridge promise, stated on
    the step functions that its methods are proved to follow. */
module BridgeLifecycle {
  import opened Common
  import opened BridgeMessages
  import opened XmppClientAdapter
  import opened XmppToWebSocketTransmitter
  import opened Bridge

  // ---------------------------------------------------------------------------
  // startSession

  /** connect returned null: the client gets one ERROR and nothing else, its
      session is then closed, no backend call follows and CONNECTIONS is untouched. */
  lemma StartWithoutConnection(st: State, session: SessionId, username: string, h: Handshake)
    requires !h.connects
    ensures var st' := StartSessionStep(st, session, username, h);
      && st'.connections == st.connections
      && CallsIn(st'.trace) == CallsIn(st.trace)
      && SentIn(st'.trace) == SentIn(st.trace) + [Send(session, ErrorMessage())]
      && st'.trace[|st'.trace| - 1] == CloseSession(session)
  {
    var log := StartLog(st.created, session, username, h);
    UnconnectedLogFilters(st.created, session, username, h);
    CallsAppend(st.trace, log);
    SentAppend(st.trace, log);
  }

  /** The backend calls of a startSession that connected, in order: a failed
      first login is followed by exactly one createAccount(username) with the
      placeholder password that connect used and, if that succeeds, exactly one
      retried login; a successful first login is followed by no account
      creation. The handshake ends with the listener being added (logged in) or
      with the connection being disconnected (not logged in). */
  lemma StartBackendCalls(st: State, session: SessionId, username: string, h: Handshake)
    requires h.connects
    ensures var calls := CallsIn(StartSessionStep(st, session, username, h).trace);
            var before := CallsIn(st.trace);
            var c := st.created;
      && (h.login ==>
            calls == before + [Login(c), AddIncomingMessageListener(c, session)])
      && (!h.login && !h.createAccount ==>
            calls == before + [Login(c), CreateAccount(username, PlaceholderPassword), Disconnect(c)])
      && (!h.login && h.createAccount && h.retryLogin ==>
            calls == before + [Login(c), CreateAccount(username, PlaceholderPassword), Login(c), AddIncomingMessageListener(c, session)])
      && (!h.login && h.createAccount && !h.retryLogin ==>
            calls == before + [Login(c), CreateAccount(username, PlaceholderPassword), Login(c), Disconnect(c)])
    ensures StartSessionStep(st, session, username, h).trace[|st.trace|] == Connect(username, PlaceholderPassword, Some(st.created))
  {
    ConnectedLogFilters(st.created, session, username, h);
    LoginAttemptsFilters(st.created, username, h);
    CallsAppend(st.trace, StartLog(st.created, session, username, h));
  }

  /** At most one provisioning attempt per startSession: createAccount is called once
      exactly when the first login fails, and login at most twice. */
  lemma StartProvisionsAtMostOnce(st: State, session: SessionId, username: string, h: Handshake)
    requires h.connects
    ensures var calls := CallsIn(StartSessionStep(st, session, username, h).trace);
            var before := CallsIn(st.trace);
      && Occurrences(calls, CreateAccount(username, PlaceholderPassword)) == Occurrences(before, CreateAccount(username, PlaceholderPassword)) + (if h.login then 0 else 1)
      && Occurrences(calls, Login(st.created)) == Occurrences(before, Login(st.created)) + (if !h.login && h.createAccount then 2 else 1)
  {
    StartBackendCalls(st, session, username, h);
    var c := st.created;
    var added: seq<Op> :=
      if h.login then [Login(c), AddIncomingMessageListener(c, session)]
      else if !h.createAccount then [Login(c), CreateAccount(username, PlaceholderPassword), Disconnect(c)]
      else [Login(c), CreateAccount(username, PlaceholderPassword), Login(c), if h.retryLogin then AddIncomingMessageListener(c, session) else Disconnect(c)];
    assert CallsIn(StartSessionStep(st, session, username, h).trace) == CallsIn(st.trace) + added;
    OccurrencesAppend(CallsIn(st.trace), added, CreateAccount(username, PlaceholderPassword));
    OccurrencesAppend(CallsIn(st.trace), added, Login(c));
  }

  /** The handshake failed after connecting: the connection is disconnected,
      then ERROR is sent; LOGGED_IN is never sent, the session has no entry, and
      the client WebSocket session is left open. */
  lemma StartRejected(st: State, session: SessionId, username: string, h: Handshake)
    requires h.connects && !Authenticated(h)
    ensures var st' := StartSessionStep(st, session, username, h);
      && st'.connections == st.connections - {session}
      && SentIn(st'.trace) == SentIn(st.trace) + [Send(session, ErrorMessage())]
      && Disconnects(st'.trace, st.created) == Disconnects(st.trace, st.created) + 1
      && st'.trace[|st'.trace| - 2..] == [Call(Disconnect(st.created), false), Send(session, ErrorMessage())]
      && (forall i | |st.trace| <= i < |st'.trace| :: !st'.trace[i].CloseSession?)
  {
    var st' := StartSessionStep(st, session, username, h);
    var log := StartLog(st.created, session, username, h);
    assert SentIn(st'.trace) == SentIn(st.trace) + [Send(session, ErrorMessage())] by {
      ConnectedLogFilters(st.created, session, username, h);
      SentAppend(st.trace, log);
    }
    assert Disconnects(st'.trace, st.created) == Disconnects(st.trace, st.created) + 1 by {
      DisconnectsAppend(st.trace, log, st.created);
      StartLogEffects(st.created, session, username, h, st.created);
    }
  }

  /** The handshake succeeded: the session is bridged to the new connection,
      which no other session uses; no other entry changes; exactly one listener,
      this session's, is on it; the client gets LOGGED_IN addressed to the
      username and nothing else; nothing is disconnected. */
  lemma StartAdmitted(st: State, session: SessionId, username: string, h: Handshake)
    requires Consistent(st)
    requires h.connects && Authenticated(h)
    ensures var st' := StartSessionStep(st, session, username, h);
      && st'.connections == st.connections[session := st.created]
      && st.created !in st.connections.Values
      && ListenersOn(st'.trace, st.created) == [session]
      && SentIn(st'.trace) == SentIn(st.trace) + [Send(session, LoggedInMessage(username))]
      && (forall c: ConnId :: Disconnects(st'.trace, c) == Disconnects(st.trace, c))
  {
    var log := StartLog(st.created, session, username, h);
    ConnectedLogFilters(st.created, session, username, h);
    SentAppend(st.trace, log);
    ListenersOnAppend(st.trace, log, st.created);
    StartLogEffects(st.created, session, username, h, st.created);
    forall c: ConnId
      ensures Disconnects(st.trace + log, c) == Disconnects(st.trace, c)
    {
      DisconnectsAppend(st.trace, log, c);
      StartLogEffects(st.created, session, username, h, c);
    }
  }

  // ---------------------------------------------------------------------------
  // handleMessage

  /** A message on a session without an entry makes no backend call, sends
      nothing and changes nothing. */
  lemma HandleWithoutEntry(st: State, m: WebsocketMessage, session: SessionId, fails: bool, presenceOk: bool)
    requires session !in st.connections
    ensures HandleStep(st, m, session, fails, presenceOk) == st
  {
  }

  /** With an entry, each request type other than LOG_OUT makes exactly one
      matching backend call on the session's connection with the message's
      content, recipient or room, sends nothing to the client and leaves the
      entry as it is. */
  lemma HandleDispatch(st: State, m: WebsocketMessage, session: SessionId, fails: bool, presenceOk: bool)
    requires session in st.connections
    requires m.messageType.Some? && IsRequest(m.messageType.value) && m.messageType != Some(LogOut)
    ensures var st' := HandleStep(st, m, session, fails, presenceOk);
            var c := st.connections[session];
            var t := m.messageType.value;
            var calls := CallsIn(st'.trace);
            var before := CallsIn(st.trace);
      && st'.connections == st.connections && st'.created == st.created
      && SentIn(st'.trace) == SentIn(st.trace)
      && (t == PersonalMessage ==> calls == before + [SendMessage(c, m.content, m.to)])
      && (t == GroupMessage ==> calls == before + [SendGroupMessage(c, m.content, m.groupId)])
      && (t == MessageType.CreateGroup ==> calls == before + [Op.CreateGroup(c, session, m.groupId)])
      && (t == MessageType.JoinGroup ==> calls == before + [Op.JoinGroup(c, session, m.groupId)])
      && (t == MessageType.LeaveGroup ==> calls == before + [Op.LeaveGroup(c, m.groupId)])
      && (t == DestroyGroup ==> calls == before + [DestroyRoom(c, m.groupId)])
  {
    var op := DispatchedOp(m, session, st.connections[session]).value;
    CallsAppend(st.trace, [Call(op, fails && Raises(op))]);
    SentAppend(st.trace, [Call(op, fails && Raises(op))]);
  }

  /** A failing backend operation is swallowed: the outcome is recorded, but the
      calls made, the messages sent and CONNECTIONS are the same as when the
      operation succeeds. */
  lemma HandleSwallowsFailure(st: State, m: WebsocketMessage, session: SessionId, presenceOk: bool)
    requires m.messageType != Some(LogOut)
    ensures var failed := HandleStep(st, m, session, true, presenceOk);
            var succeeded := HandleStep(st, m, session, false, presenceOk);
      && failed.connections == succeeded.connections == st.connections
      && CallsIn(failed.trace) == CallsIn(succeeded.trace)
      && SentIn(failed.trace) == SentIn(succeeded.trace) == SentIn(st.trace)
  {
    if session in st.connections {
      var op := DispatchedOp(m, session, st.connections[session]);
      if op.Some? {
        CallsAppend(st.trace, [Call(op.value, Raises(op.value))]);
        CallsAppend(st.trace, [Call(op.value, false)]);
        SentAppend(st.trace, [Call(op.value, Raises(op.value))]);
        SentAppend(st.trace, [Call(op.value, false)]);
      }
    }
  }

  /** LOG_OUT runs disconnect; the response types LOGGED_IN, ERROR and FORBIDDEN,
      and a message without a type, do nothing. */
  lemma HandleNonDispatched(st: State, m: WebsocketMessage, session: SessionId, fails: bool, presenceOk: bool)
    ensures m.messageType == Some(LogOut) ==> HandleStep(st, m, session, fails, presenceOk) == DisconnectStep(st, session, presenceOk)
    ensures m.messageType.None? || m.messageType == Some(LoggedIn) || m.messageType == Some(Error) || m.messageType == Some(Forbidden)
            ==> HandleStep(st, m, session, fails, presenceOk) == st
  {
  }

  // ---------------------------------------------------------------------------
  // disconnect

  /** Tearing down a session without an entry does nothing. */
  lemma DisconnectWithoutEntry(st: State, session: SessionId, presenceOk: bool)
    requires session !in st.connections
    ensures DisconnectStep(st, session, presenceOk) == st
  {
  }

  /** Tearing down a bridged session sends presence "unavailable" and then
      disconnects its connection once, sends ERROR to the client exactly when the
      presence failed, and removes exactly that session's entry. */
  lemma DisconnectTearsDown(st: State, session: SessionId, presenceOk: bool)
    requires session in st.connections
    ensures var st' := DisconnectStep(st, session, presenceOk);
            var c := st.connections[session];
      && st'.connections == st.connections - {session}
      && CallsIn(st'.trace) == CallsIn(st.trace) + [SendStanza(c, Unavailable), Disconnect(c)]
      && SentIn(st'.trace) == SentIn(st.trace) + (if presenceOk then [] else [Send(session, ErrorMessage())])
  {
    var log := DisconnectLog(st.connections[session], session, presenceOk);
    DisconnectLogFilters(st.connections[session], session, presenceOk);
    CallsAppend(st.trace, log);
    SentAppend(st.trace, log);
  }

  /** Teardown is idempotent: once a session is disconnected, a further
      disconnect, from a closed session, a session error or LOG_OUT, changes
      nothing, so the connection is disconnected once. */
  lemma DisconnectIdempotent(st: State, session: SessionId, presenceOk: bool, again: bool)
    requires Consistent(st)
    ensures DisconnectStep(DisconnectStep(st, session, presenceOk), session, again) == DisconnectStep(st, session, presenceOk)
    ensures session in st.connections ==>
      Disconnects(DisconnectStep(DisconnectStep(st, session, presenceOk), session, again).trace, st.connections[session]) == 1
  {
    if session in st.connections {
      var c := st.connections[session];
      DisconnectsAppend(st.trace, DisconnectLog(c, session, presenceOk), c);
      DisconnectLogEffects(c, session, presenceOk, c);
    }
  }

  // ---------------------------------------------------------------------------
  // Incoming chat messages

  /** The backend calls every incoming-message listener on a connection, in the
      order they were added, and each relays the stanza to its own session. */
  function Deliver(listeners: seq<SessionId>, m: XmppMessage): seq<BridgeEvent>
  {
    if listeners == [] then [] else SendPersonalResponse(m, listeners[0]) + Deliver(listeners[1..], m)
  }

  /** A chat message reaching a bridged session's connection is relayed to that
      session only, exactly once when both addresses have a localpart. */
  lemma IncomingMessageReachesOnlyItsSession(st: State, session: SessionId, m: XmppMessage)
    requires Consistent(st) && session in st.connections
    ensures var out := Deliver(ListenersOn(st.trace, st.connections[session]), m);
      && out == SendPersonalResponse(m, session)
      && (forall e | e in out :: e.Send? && e.session == session)
      && (m.from.localpart.Some? && m.to.localpart.Some? ==> |out| == 1)
  {
    assert ListenersOn(st.trace, st.connections[session]) == [session];
    assert Deliver([session], m) == SendPersonalResponse(m, session) + Deliver([], m);
  }

  // ---------------------------------------------------------------------------
  // Whole lifetimes: any sequence of WebSocket callbacks

  /** One callback of the WebSocket endpoint, with the backend's answers. A closed
      session and a session error both run disconnect. */
  datatype Callback =
    | Opened(session: SessionId, username: string, h: Handshake)
    | Received(session: SessionId, message: WebsocketMessage, fails: bool, presenceOk: bool)
    | Closed(session: SessionId, presenceOk: bool)
    | Errored(session: SessionId, presenceOk: bool)

  function Apply(st: State, cb: Callback): State
  {
    match cb
    case Opened(s, u, h) => StartSessionStep(st, s, u, h)
    case Received(s, m, f, p) => HandleStep(st, m, s, f, p)
    case Closed(s, p) => DisconnectStep(st, s, p)
    case Errored(s, p) => DisconnectStep(st, s, p)
  }

  /** The callbacks handled one at a time, in order. */
  function Run(st: State, cbs: seq<Callback>): State
    decreases |cbs|
  {
    if cbs == [] then st else Run(Apply(st, cbs[0]), cbs[1..])
  }

  /** Whether `s` has an entry after `cbs`, judged from the callbacks alone: a
      startSession that connects decides it by whether the handshake logged in;
      disconnect, from any of its three callers, ends it; anything else leaves it
      as it was. */
  function Bridged(s: SessionId, cbs: seq<Callback>, before: bool): bool
    decreases |cbs|
  {
    if cbs == [] then before
    else
      var now := match cbs[0]
        case Opened(s', _, h) => if s' == s && h.connects then Authenticated(h) else before
        case Received(s', m, _, _) => if s' == s && m.messageType == Some(LogOut) then false else before
        case Closed(s', _) => if s' == s then false else before
        case Errored(s', _) => if s' == s then false else before;
      Bridged(s, cbs[1..], now)
  }

  /** A session has an entry exactly when its last deciding callback was a
      startSession whose handshake logged in, and no disconnect has happened since. */
  lemma {:induction false} RunBridged(st: State, cbs: seq<Callback>, s: SessionId)
    ensures s in Run(st, cbs).connections <==> Bridged(s, cbs, s in st.connections)
    decreases |cbs|
  {
    if cbs != [] {
      RunBridged(Apply(st, cbs[0]), cbs[1..], s);
    }
  }

  lemma {:induction false} RunKeepsConsistent(st: State, cbs: seq<Callback>)
    requires Consistent(st)
    ensures Consistent(Run(st, cbs))
    decreases |cbs|
  {
    if cbs != [] {
      match cbs[0] {
        case Opened(s, u, h) => StartKeepsConsistent(st, s, u, h);
        case Received(s, m, f, p) => HandleKeepsConsistent(st, m, s, f, p);
        case Closed(s, p) => DisconnectKeepsConsistent(st, s, p);
        case Errored(s, p) => DisconnectKeepsConsistent(st, s, p);
      }
      RunKeepsConsistent(Apply(st, cbs[0]), cbs[1..]);
    }
  }

  /** However the callbacks interleave, starting from an empty CONNECTIONS map no
      backend connection is ever disconnected twice, and no two sessions ever
      share a connection. */
  lemma AtMostOneDisconnectPerConnection(cbs: seq<Callback>)
    ensures forall c: ConnId :: Disconnects(Run(Initial, cbs).trace, c) <= 1
    ensures Injective(Run(Initial, cbs).connections)
  {
    RunKeepsConsistent(Initial, cbs);
  }
}
