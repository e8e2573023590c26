/** What the lifecycle and dispatch of ImWebSocketController promise, stated on
    the step functions that its methods are proved to follow. */
module ImLifecycle {
  import opened Common
  import opened ImMessages
  import opened OpenfireAdapter
  import opened ResponseHelper
  import opened ImController

  // ---------------------------------------------------------------------------
  // open

  /** connect returned null: the client gets one FAIL and nothing else, its
      session is then closed, no backend call follows and CONNECTIONS is untouched. */
  lemma OpenWithoutConnection(st: State, session: SessionId, username: string, password: string, h: Handshake)
    requires !h.connects
    ensures var st' := OpenStep(st, session, username, password, h);
      && st'.connections == st.connections
      && CallsIn(st'.trace) == CallsIn(st.trace)
      && SentIn(st'.trace) == SentIn(st.trace) + [Send(session, FailMessage())]
      && st'.trace[|st'.trace| - 1] == CloseSession(session)
  {
    var log := OpenLog(st.created, session, username, password, h);
    UnconnectedLogFilters(st.created, session, username, password, h);
    CallsAppend(st.trace, log);
    SentAppend(st.trace, log);
  }

  /** The backend calls of an open that connected, in order: a failed first
      login is followed by exactly one createAccount(username) and, if that
      succeeds, exactly one retried login; a successful first login is followed
      by no account creation. The handshake ends with the listener being added
      (logged in) or with the connection being disconnected (not logged in). */
  lemma OpenBackendCalls(st: State, session: SessionId, username: string, password: string, h: Handshake)
    requires h.connects
    ensures var calls := CallsIn(OpenStep(st, session, username, password, h).trace);
            var before := CallsIn(st.trace);
            var c := st.created;
      && (h.login ==>
            calls == before + [Login(c), AddIncomingMessageListener(c, session)])
      && (!h.login && !h.createAccount ==>
            calls == before + [Login(c), CreateAccount(username), Disconnect(c)])
      && (!h.login && h.createAccount && h.retryLogin ==>
            calls == before + [Login(c), CreateAccount(username), Login(c), AddIncomingMessageListener(c, session)])
      && (!h.login && h.createAccount && !h.retryLogin ==>
            calls == before + [Login(c), CreateAccount(username), Login(c), Disconnect(c)])
  {
    ConnectedLogFilters(st.created, session, username, password, h);
    LoginAttemptsFilters(st.created, username, h);
    CallsAppend(st.trace, OpenLog(st.created, session, username, password, h));
  }

  /** At most one provisioning attempt per open: createAccount is called once
      exactly when the first login fails, and login at most twice. */
  lemma OpenProvisionsAtMostOnce(st: State, session: SessionId, username: string, password: string, h: Handshake)
    requires h.connects
    ensures var calls := CallsIn(OpenStep(st, session, username, password, h).trace);
            var before := CallsIn(st.trace);
      && Occurrences(calls, CreateAccount(username)) == Occurrences(before, CreateAccount(username)) + (if h.login then 0 else 1)
      && Occurrences(calls, Login(st.created)) == Occurrences(before, Login(st.created)) + (if !h.login && h.createAccount then 2 else 1)
  {
    OpenBackendCalls(st, session, username, password, h);
    var c := st.created;
    var added: seq<Op> :=
      if h.login then [Login(c), AddIncomingMessageListener(c, session)]
      else if !h.createAccount then [Login(c), CreateAccount(username), Disconnect(c)]
      else [Login(c), CreateAccount(username), Login(c), if h.retryLogin then AddIncomingMessageListener(c, session) else Disconnect(c)];
    assert CallsIn(OpenStep(st, session, username, password, h).trace) == CallsIn(st.trace) + added;
    OccurrencesAppend(CallsIn(st.trace), added, CreateAccount(username));
    OccurrencesAppend(CallsIn(st.trace), added, Login(c));
  }

  /** The handshake failed after connecting: the connection is disconnected,
      then FAIL is sent; SUCCESS is never sent, the session has no entry, and
      the client WebSocket session is left open. */
  lemma OpenRejected(st: State, session: SessionId, username: string, password: string, h: Handshake)
    requires h.connects && !Authenticated(h)
    ensures var st' := OpenStep(st, session, username, password, h);
      && st'.connections == st.connections - {session}
      && SentIn(st'.trace) == SentIn(st.trace) + [Send(session, FailMessage())]
      && Disconnects(st'.trace, st.created) == Disconnects(st.trace, st.created) + 1
      && st'.trace[|st'.trace| - 2..] == [Call(Disconnect(st.created), false), Send(session, FailMessage())]
      && (forall i | |st.trace| <= i < |st'.trace| :: !st'.trace[i].CloseSession?)
  {
    var st' := OpenStep(st, session, username, password, h);
    var log := OpenLog(st.created, session, username, password, h);
    assert SentIn(st'.trace) == SentIn(st.trace) + [Send(session, FailMessage())] by {
      ConnectedLogFilters(st.created, session, username, password, h);
      SentAppend(st.trace, log);
    }
    assert Disconnects(st'.trace, st.created) == Disconnects(st.trace, st.created) + 1 by {
      DisconnectsAppend(st.trace, log, st.created);
      OpenLogEffects(st.created, session, username, password, h, st.created);
    }
  }

  /** The handshake succeeded: the session is bridged to the new connection,
      which no other session uses; no other entry changes; exactly one listener,
      this session's, is on it; the client gets SUCCESS addressed to the
      username and nothing else; nothing is disconnected. */
  lemma OpenAdmitted(st: State, session: SessionId, username: string, password: string, h: Handshake)
    requires Consistent(st)
    requires h.connects && Authenticated(h)
    ensures var st' := OpenStep(st, session, username, password, h);
      && st'.connections == st.connections[session := st.created]
      && st.created !in st.connections.Values
      && ListenersOn(st'.trace, st.created) == [session]
      && SentIn(st'.trace) == SentIn(st.trace) + [Send(session, SuccessMessage(username))]
      && (forall c: ConnId :: Disconnects(st'.trace, c) == Disconnects(st.trace, c))
  {
    var log := OpenLog(st.created, session, username, password, h);
    ConnectedLogFilters(st.created, session, username, password, h);
    SentAppend(st.trace, log);
    ListenersOnAppend(st.trace, log, st.created);
    OpenLogEffects(st.created, session, username, password, h, st.created);
    forall c: ConnId
      ensures Disconnects(st.trace + log, c) == Disconnects(st.trace, c)
    {
      DisconnectsAppend(st.trace, log, c);
      OpenLogEffects(st.created, session, username, password, h, c);
    }
  }

  // ---------------------------------------------------------------------------
  // handleMessage

  /** A message on a session without an entry makes no backend call, sends
      nothing and changes nothing. */
  lemma HandleWithoutEntry(st: State, m: WebsocketMessage, session: SessionId, fails: bool, presenceOk: bool)
    requires session !in st.connections
    ensures HandleStep(st, m, session, fails, presenceOk) == st
  {
  }

  /** With an entry, each request type other than LOGOUT makes exactly one
      matching backend call on the session's connection with the message's
      content, recipient or room, sends nothing to the client and leaves the
      entry as it is. */
  lemma HandleDispatch(st: State, m: WebsocketMessage, session: SessionId, fails: bool, presenceOk: bool)
    requires session in st.connections
    requires m.messageType.Some? && IsRequest(m.messageType.value) && m.messageType != Some(Logout)
    ensures var st' := HandleStep(st, m, session, fails, presenceOk);
            var c := st.connections[session];
            var t := m.messageType.value;
            var calls := CallsIn(st'.trace);
            var before := CallsIn(st.trace);
      && st'.connections == st.connections && st'.created == st.created
      && SentIn(st'.trace) == SentIn(st.trace)
      && (t == PersonalMessage ==> calls == before + [SendMessage(c, m.content, m.to)])
      && (t == RoomMessage ==> calls == before + [SendRoomMessage(c, m.content, m.roomId)])
      && (t == MessageType.CreateRoom ==> calls == before + [Op.CreateRoom(c, session, m.roomId)])
      && (t == MessageType.JoinRoom ==> calls == before + [Op.JoinRoom(c, session, m.roomId)])
      && (t == MessageType.LeaveRoom ==> calls == before + [Op.LeaveRoom(c, m.roomId)])
      && (t == MessageType.DestroyRoom ==> calls == before + [Op.DestroyRoom(c, m.roomId)])
  {
    var op := DispatchedOp(m, session, st.connections[session]).value;
    CallsAppend(st.trace, [Call(op, fails && Raises(op))]);
    SentAppend(st.trace, [Call(op, fails && Raises(op))]);
  }

  /** A failing backend operation is swallowed: the outcome is recorded, but the
      calls made, the messages sent and CONNECTIONS are the same as when the
      operation succeeds. */
  lemma HandleSwallowsFailure(st: State, m: WebsocketMessage, session: SessionId, presenceOk: bool)
    requires m.messageType != Some(Logout)
    ensures var failed := HandleStep(st, m, session, true, presenceOk);
            var succeeded := HandleStep(st, m, session, false, presenceOk);
      && failed.connections == succeeded.connections == st.connections
      && CallsIn(failed.trace) == CallsIn(succeeded.trace)
      && SentIn(failed.trace) == SentIn(succeeded.trace) == SentIn(st.trace)
  {
    if session in st.connections {
      var op := DispatchedOp(m, session, st.connections[session]);
      if op.Some? {
        CallsAppend(st.trace, [Call(op.value, Raises(op.value))]);
        CallsAppend(st.trace, [Call(op.value, false)]);
        SentAppend(st.trace, [Call(op.value, Raises(op.value))]);
        SentAppend(st.trace, [Call(op.value, false)]);
      }
    }
  }

  /** LOGOUT runs close; the response types SUCCESS and FAIL, and a message
      without a type, do nothing. */
  lemma HandleNonDispatched(st: State, m: WebsocketMessage, session: SessionId, fails: bool, presenceOk: bool)
    ensures m.messageType == Some(Logout) ==> HandleStep(st, m, session, fails, presenceOk) == CloseStep(st, session, presenceOk)
    ensures m.messageType.None? || m.messageType == Some(Success) || m.messageType == Some(Fail)
            ==> HandleStep(st, m, session, fails, presenceOk) == st
  {
  }

  // ---------------------------------------------------------------------------
  // close and onError

  /** Tearing down a session without an entry does nothing. */
  lemma CloseWithoutEntry(st: State, session: SessionId, presenceOk: bool)
    requires session !in st.connections
    ensures CloseStep(st, session, presenceOk) == st
  {
  }

  /** Tearing down a bridged session sends presence "unavailable" and then
      disconnects its connection once, sends FAIL to the client exactly when the
      presence failed, and removes exactly that session's entry. */
  lemma CloseTearsDown(st: State, session: SessionId, presenceOk: bool)
    requires session in st.connections
    ensures var st' := CloseStep(st, session, presenceOk);
            var c := st.connections[session];
      && st'.connections == st.connections - {session}
      && CallsIn(st'.trace) == CallsIn(st.trace) + [SendStanza(c, Unavailable), Disconnect(c)]
      && SentIn(st'.trace) == SentIn(st.trace) + (if presenceOk then [] else [Send(session, FailMessage())])
  {
    var log := CloseLog(st.connections[session], session, presenceOk);
    CloseLogFilters(st.connections[session], session, presenceOk);
    CallsAppend(st.trace, log);
    SentAppend(st.trace, log);
  }

  /** Teardown is idempotent: a second close, onError or LOGOUT after a close
      changes nothing, so the connection is disconnected once. */
  lemma CloseIdempotent(st: State, session: SessionId, presenceOk: bool, again: bool)
    requires Consistent(st)
    ensures CloseStep(CloseStep(st, session, presenceOk), session, again) == CloseStep(st, session, presenceOk)
    ensures session in st.connections ==>
      Disconnects(CloseStep(CloseStep(st, session, presenceOk), session, again).trace, st.connections[session]) == 1
  {
    if session in st.connections {
      var c := st.connections[session];
      DisconnectsAppend(st.trace, CloseLog(c, session, presenceOk), c);
      CloseLogEffects(c, session, presenceOk, c);
    }
  }

  // ---------------------------------------------------------------------------
  // Incoming chat messages

  /** The backend calls every incoming-message listener on a connection, in the
      order they were added, and each relays the stanza to its own session. */
  function Deliver(listeners: seq<SessionId>, m: XmppMessage): seq<ImEvent>
  {
    if listeners == [] then [] else SendPersonalResponse(m, listeners[0]) + Deliver(listeners[1..], m)
  }

  /** A chat message reaching a bridged session's connection is relayed to that
      session only, exactly once when both addresses have a localpart. */
  lemma IncomingMessageReachesOnlyItsSession(st: State, session: SessionId, m: XmppMessage)
    requires Consistent(st) && session in st.connections
    ensures var out := Deliver(ListenersOn(st.trace, st.connections[session]), m);
      && out == SendPersonalResponse(m, session)
      && (forall e | e in out :: e.Send? && e.session == session)
      && (m.from.localpart.Some? && m.to.localpart.Some? ==> |out| == 1)
  {
    assert ListenersOn(st.trace, st.connections[session]) == [session];
    assert Deliver([session], m) == SendPersonalResponse(m, session) + Deliver([], m);
  }

  // ---------------------------------------------------------------------------
  // Whole lifetimes: any sequence of WebSocket callbacks

  /** One callback of the WebSocket container, with the backend's answers. */
  datatype Callback =
    | Opened(session: SessionId, username: string, h: Handshake)
    | Received(session: SessionId, message: WebsocketMessage, fails: bool, presenceOk: bool)
    | Closed(session: SessionId, presenceOk: bool)
    | Errored(session: SessionId, presenceOk: bool)

  function Apply(st: State, password: string, cb: Callback): State
  {
    match cb
    case Opened(s, u, h) => OpenStep(st, s, u, password, h)
    case Received(s, m, f, p) => HandleStep(st, m, s, f, p)
    case Closed(s, p) => CloseStep(st, s, p)
    case Errored(s, p) => CloseStep(st, s, p)
  }

  /** The callbacks handled one at a time, in order. */
  function Run(st: State, password: string, cbs: seq<Callback>): State
    decreases |cbs|
  {
    if cbs == [] then st else Run(Apply(st, password, cbs[0]), password, cbs[1..])
  }

  /** Whether `s` has an entry after `cbs`, judged from the callbacks alone: an
      open that connects decides it by whether the handshake logged in; close,
      onError and LOGOUT end it; anything else leaves it as it was. */
  function Bridged(s: SessionId, cbs: seq<Callback>, before: bool): bool
    decreases |cbs|
  {
    if cbs == [] then before
    else
      var now := match cbs[0]
        case Opened(s', _, h) => if s' == s && h.connects then Authenticated(h) else before
        case Received(s', m, _, _) => if s' == s && m.messageType == Some(Logout) then false else before
        case Closed(s', _) => if s' == s then false else before
        case Errored(s', _) => if s' == s then false else before;
      Bridged(s, cbs[1..], now)
  }

  /** A session has an entry exactly when its last deciding callback was an open
      whose handshake logged in, and no teardown has happened since. */
  lemma {:induction false} RunBridged(st: State, password: string, cbs: seq<Callback>, s: SessionId)
    ensures s in Run(st, password, cbs).connections <==> Bridged(s, cbs, s in st.connections)
    decreases |cbs|
  {
    if cbs != [] {
      RunBridged(Apply(st, password, cbs[0]), password, cbs[1..], s);
    }
  }

  lemma {:induction false} RunKeepsConsistent(st: State, password: string, cbs: seq<Callback>)
    requires Consistent(st)
    ensures Consistent(Run(st, password, cbs))
    decreases |cbs|
  {
    if cbs != [] {
      match cbs[0] {
        case Opened(s, u, h) => OpenKeepsConsistent(st, s, u, password, h);
        case Received(s, m, f, p) => HandleKeepsConsistent(st, m, s, f, p);
        case Closed(s, p) => CloseKeepsConsistent(st, s, p);
        case Errored(s, p) => CloseKeepsConsistent(st, s, p);
      }
      RunKeepsConsistent(Apply(st, password, cbs[0]), password, cbs[1..]);
    }
  }

  /** However the callbacks interleave, starting from an empty CONNECTIONS map no
      backend connection is ever disconnected twice, and no two sessions ever
      share a connection. */
  lemma AtMostOneDisconnectPerConnection(password: string, cbs: seq<Callback>)
    ensures forall c: ConnId :: Disconnects(Run(Initial, password, cbs).trace, c) <= 1
    ensures Injective(Run(Initial, password, cbs).connections)
  {
    RunKeepsConsistent(Initial, password, cbs);
  }
}
