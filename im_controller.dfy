/** ImWebSocketController: the session lifecycle and command dispatch of the current
    package. The state is the CONNECTIONS map from client session to backend
    connection, the number of backend connections created so far, and the ordered
    log of backend calls and client-side effects. Each operation is specified by a
    step function on that state; the class methods run the operation step by step
    and are proved to agree with it, and the lemmas state what the steps promise. */
module ImController {
  import opened Common
  import opened ImMessages
  import opened OpenfireAdapter
  import opened ResponseHelper

  datatype State = State(connections: map<SessionId, ConnId>, created: nat, trace: seq<ImEvent>)

  const Initial: State := State(map[], 0, [])

  /** The login, account creation and retried login that open performs on `c`. */
  function LoginAttempts(c: ConnId, username: string, h: Handshake): seq<ImEvent>
  {
    [Call(Login(c), !h.login)]
    + if h.login then []
      else [Call(CreateAccount(username), !h.createAccount)]
           + if h.createAccount then [Call(Login(c), !h.retryLogin)] else []
  }

  /** What open(session, username) logs when the next connection to be created
      is `next`; `password` is the configured user password that
      connect(username) uses. */
  function OpenLog(next: ConnId, session: SessionId, username: string, password: string, h: Handshake): seq<ImEvent>
  {
    if !h.connects then
      [Connect(username, password, None), Send(session, FailMessage()), CloseSession(session)]
    else
      [Connect(username, password, Some(next))] + LoginAttempts(next, username, h)
      + if Authenticated(h) then [Call(AddIncomingMessageListener(next, session), false), Send(session, SuccessMessage(username))]
        else [Call(Disconnect(next), false), Send(session, FailMessage())]
  }

  /** open(session, username) */
  function OpenStep(st: State, session: SessionId, username: string, password: string, h: Handshake): State
  {
    State(
      if !h.connects then st.connections
      else if Authenticated(h) then st.connections[session := st.created]
      else st.connections - {session},
      if h.connects then st.created + 1 else st.created,
      st.trace + OpenLog(st.created, session, username, password, h))
  }

  /** What close logs for a session bridged to connection `c`. */
  function CloseLog(c: ConnId, session: SessionId, presenceOk: bool): seq<ImEvent>
  {
    [Call(SendStanza(c, Unavailable), !presenceOk)]
    + (if presenceOk then [] else [Send(session, FailMessage())])
    + [Call(Disconnect(c), false)]
  }

  /** close(session), which onError and a LOGOUT request also run. */
  function CloseStep(st: State, session: SessionId, presenceOk: bool): State
  {
    if session !in st.connections then st
    else
      st.(connections := st.connections - {session},
          trace := st.trace + CloseLog(st.connections[session], session, presenceOk))
  }

  /** The adapter call that handleMessage's switch makes for a request on
      connection `c`; none for LOGOUT, for the response types and for a null type. */
  function DispatchedOp(m: WebsocketMessage, session: SessionId, c: ConnId): (r: Option<Op>)
    ensures r.Some? ==> !r.value.Disconnect? && !r.value.AddIncomingMessageListener?
  {
    match m.messageType
    case None => None
    case Some(t) =>
      match t
      case PersonalMessage => Some(SendMessage(c, m.content, m.to))
      case RoomMessage => Some(SendRoomMessage(c, m.content, m.roomId))
      case CreateRoom => Some(OpenfireAdapter.CreateRoom(c, session, m.roomId))
      case JoinRoom => Some(OpenfireAdapter.JoinRoom(c, session, m.roomId))
      case LeaveRoom => Some(OpenfireAdapter.LeaveRoom(c, m.roomId))
      case DestroyRoom => Some(OpenfireAdapter.DestroyRoom(c, m.roomId))
      case _ => None
  }

  /** handleMessage(message, session): `fails` is whether the backend operation
      fails, `presenceOk` the presence outcome should the request be LOGOUT. */
  function HandleStep(st: State, m: WebsocketMessage, session: SessionId, fails: bool, presenceOk: bool): State
  {
    if session !in st.connections then st
    else if m.messageType == Some(Logout) then CloseStep(st, session, presenceOk)
    else
      match DispatchedOp(m, session, st.connections[session])
      case None => st
      case Some(op) => st.(trace := st.trace + [Call(op, fails && Raises(op))])
  }

  /** How often connection `c` was disconnected. */
  function Disconnects(trace: seq<ImEvent>, c: ConnId): nat
  {
    Occurrences(CallsIn(trace), Disconnect(c))
  }

  /** The session whose listener `op` adds to connection `c`, if it adds one. */
  function ListenerAdded(op: Op, c: ConnId): seq<SessionId>
  {
    if op.AddIncomingMessageListener? && op.conn == c then [op.session] else []
  }

  /** The sessions whose incoming-message listeners `calls` add to connection `c`,
      in the order they are added. */
  function Listeners(calls: seq<Op>, c: ConnId): seq<SessionId>
  {
    if calls == [] then [] else ListenerAdded(calls[0], c) + Listeners(calls[1..], c)
  }

  /** The sessions whose incoming-message listeners were added to connection `c`:
      the backend calls each back for every chat message that reaches `c`. */
  function ListenersOn(trace: seq<ImEvent>, c: ConnId): seq<SessionId>
  {
    Listeners(CallsIn(trace), c)
  }

  /** What the controller keeps true of its state: no two sessions share a
      connection; a bridged session's connection was created, is not yet
      disconnected and carries exactly one listener, that session's; no
      connection is disconnected twice; connections not yet created appear nowhere. */
  ghost predicate Consistent(st: State)
  {
    && Injective(st.connections)
    && (forall s | s in st.connections :: st.connections[s] < st.created)
    && (forall s | s in st.connections ::
          Disconnects(st.trace, st.connections[s]) == 0 && ListenersOn(st.trace, st.connections[s]) == [s])
    && (forall c: ConnId :: Disconnects(st.trace, c) <= 1)
    && (forall c: ConnId | st.created <= c :: Disconnects(st.trace, c) == 0 && ListenersOn(st.trace, c) == [])
  }

  lemma {:induction false} ListenersAppend(a: seq<Op>, b: seq<Op>, c: ConnId)
    ensures Listeners(a + b, c) == Listeners(a, c) + Listeners(b, c)
  {
    if a == [] {
      assert a + b == b;
    } else {
      assert (a + b)[0] == a[0] && (a + b)[1..] == a[1..] + b;
      ListenersAppend(a[1..], b, c);
      calc {
        Listeners(a + b, c);
        ListenerAdded(a[0], c) + Listeners(a[1..] + b, c);
        ListenerAdded(a[0], c) + (Listeners(a[1..], c) + Listeners(b, c));
        (ListenerAdded(a[0], c) + Listeners(a[1..], c)) + Listeners(b, c);
      }
    }
  }

  lemma ListenersOnAppend(a: seq<ImEvent>, b: seq<ImEvent>, c: ConnId)
    ensures ListenersOn(a + b, c) == ListenersOn(a, c) + ListenersOn(b, c)
  {
    CallsAppend(a, b);
    ListenersAppend(CallsIn(a), CallsIn(b), c);
  }

  lemma DisconnectsAppend(a: seq<ImEvent>, b: seq<ImEvent>, c: ConnId)
    ensures Disconnects(a + b, c) == Disconnects(a, c) + Disconnects(b, c)
  {
    CallsAppend(a, b);
    OccurrencesAppend(CallsIn(a), CallsIn(b), Disconnect(c));
  }

  /** Calls that add no listener add no listener to any connection. */
  lemma {:induction false} NoListeners(calls: seq<Op>, c: ConnId)
    requires forall op | op in calls :: !op.AddIncomingMessageListener?
    ensures Listeners(calls, c) == []
  {
    if calls != [] {
      NoListeners(calls[1..], c);
    }
  }

  // ---------------------------------------------------------------------------
  // The controller object

  class ImWebSocketController {
    var connections: map<SessionId, ConnId>
    var created: nat
    var trace: seq<ImEvent>
    /** The configured password of every user account (OpenfireProperties.userPassword). */
    const userPassword: string

    function Snapshot(): State
      reads this
    {
      State(connections, created, trace)
    }

    ghost predicate Valid()
      reads this
    {
      Consistent(Snapshot())
    }

    constructor (userPassword: string)
      ensures Valid() && Snapshot() == Initial && this.userPassword == userPassword
    {
      connections, created, trace := map[], 0, [];
      this.userPassword := userPassword;
    }

    method Open(session: SessionId, username: string, h: Handshake)
      requires Valid()
      modifies this
      ensures Valid()
      ensures Snapshot() == OpenStep(old(Snapshot()), session, username, userPassword, h)
    {
      ghost var st := Snapshot();
      // openfireService.connect(username): a new connection, or null
      var connection: Option<ConnId> := None;
      if h.connects {
        connection := Some(created);
        created := created + 1;
      }
      trace := trace + [Connect(username, userPassword, connection)];
      if connection.None? {
        trace := trace + [Send(session, FailMessage())];
        trace := trace + [CloseSession(session)];
        assert Snapshot() == OpenStep(st, session, username, userPassword, h);
        OpenKeepsConsistent(st, session, username, userPassword, h);
        return;
      }
      var c := connection.value;
      var loggedIn := Authenticate(c, username, h);
      if !loggedIn {
        SendFailAndDisconnect(session, c);
        assert Snapshot() == OpenStep(st, session, username, userPassword, h);
        OpenKeepsConsistent(st, session, username, userPassword, h);
        return;
      }
      connections := connections[session := c];
      trace := trace + [Call(AddIncomingMessageListener(c, session), false)];
      trace := trace + [Send(session, SuccessMessage(username))];
      assert Snapshot() == OpenStep(st, session, username, userPassword, h);
      OpenKeepsConsistent(st, session, username, userPassword, h);
    }

    /** The nested try of open: login, and on failure createAccount and one more
        login; an exception from either leaves the session logged out. */
    method Authenticate(c: ConnId, username: string, h: Handshake) returns (loggedIn: bool)
      modifies this
      ensures loggedIn == Authenticated(h)
      ensures connections == old(connections) && created == old(created)
      ensures trace == old(trace) + LoginAttempts(c, username, h)
    {
      loggedIn := h.login;
      trace := trace + [Call(Login(c), !loggedIn)];
      if !loggedIn {
        trace := trace + [Call(CreateAccount(username), !h.createAccount)];
        if h.createAccount {
          loggedIn := h.retryLogin;
          trace := trace + [Call(Login(c), !loggedIn)];
        }
      }
    }

    method HandleMessage(message: WebsocketMessage, session: SessionId, fails: bool, presenceOk: bool)
      requires Valid()
      modifies this
      ensures Valid()
      ensures Snapshot() == HandleStep(old(Snapshot()), message, session, fails, presenceOk)
    {
      if session !in connections {
        return;
      }
      ghost var st := Snapshot();
      HandleKeepsConsistent(st, message, session, fails, presenceOk);
      var connection := connections[session];
      match message.messageType {
        case None =>
          // the switch throws on a null type; the exception is caught
        case Some(t) =>
          match t {
            case PersonalMessage => Invoke(SendMessage(connection, message.content, message.to), fails);
            case RoomMessage => Invoke(SendRoomMessage(connection, message.content, message.roomId), fails);
            case CreateRoom => Invoke(OpenfireAdapter.CreateRoom(connection, session, message.roomId), fails);
            case JoinRoom => Invoke(OpenfireAdapter.JoinRoom(connection, session, message.roomId), fails);
            case LeaveRoom => Invoke(OpenfireAdapter.LeaveRoom(connection, message.roomId), fails);
            case DestroyRoom => Invoke(OpenfireAdapter.DestroyRoom(connection, message.roomId), fails);
            case Logout => Close(session, presenceOk);
            case Success =>
            case Fail =>
          }
      }
    }

    method Close(session: SessionId, presenceOk: bool)
      requires Valid()
      modifies this
      ensures Valid()
      ensures Snapshot() == CloseStep(old(Snapshot()), session, presenceOk)
    {
      if session !in connections {
        return;
      }
      ghost var st := Snapshot();
      var connection := connections[session];
      trace := trace + [Call(SendStanza(connection, Unavailable), !presenceOk)];
      if !presenceOk {
        trace := trace + [Send(session, FailMessage())];
      }
      trace := trace + [Call(Disconnect(connection), false)];
      connections := connections - {session};
      assert Snapshot() == CloseStep(st, session, presenceOk);
      CloseKeepsConsistent(st, session, presenceOk);
    }

    method OnError(session: SessionId, presenceOk: bool)
      requires Valid()
      modifies this
      ensures Valid()
      ensures Snapshot() == CloseStep(old(Snapshot()), session, presenceOk)
    {
      Close(session, presenceOk);
    }

    /** One dispatched adapter call; an exception it raises is caught and printed. */
    method Invoke(op: Op, fails: bool)
      modifies this
      ensures connections == old(connections) && created == old(created)
      ensures trace == old(trace) + [Call(op, fails && Raises(op))]
    {
      trace := trace + [Call(op, fails && Raises(op))];
    }

    method SendFailAndDisconnect(session: SessionId, connection: ConnId)
      modifies this
      ensures connections == old(connections) - {session} && created == old(created)
      ensures trace == old(trace) + [Call(Disconnect(connection), false), Send(session, FailMessage())]
    {
      trace := trace + [Call(Disconnect(connection), false)];
      trace := trace + [Send(session, FailMessage())];
      connections := connections - {session};
    }
  }

  // ---------------------------------------------------------------------------
  // The calls and client messages each log segment holds

  lemma LoginAttemptsFilters(c: ConnId, username: string, h: Handshake)
    ensures CallsIn(LoginAttempts(c, username, h))
         == [Login(c)] + if h.login then [] else [CreateAccount(username)] + if h.createAccount then [Login(c)] else []
    ensures SentIn(LoginAttempts(c, username, h)) == []
  {
    var attempts := LoginAttempts(c, username, h);
    var rest := attempts[1..];
    assert attempts == [attempts[0]] + rest;
    CallsAppend([attempts[0]], rest);
    SentAppend([attempts[0]], rest);
    if !h.login && h.createAccount {
      PairFilters(rest[0], rest[1]);
    }
  }

  lemma ConnectedLogFilters(next: ConnId, session: SessionId, username: string, password: string, h: Handshake)
    requires h.connects
    ensures CallsIn(OpenLog(next, session, username, password, h))
         == CallsIn(LoginAttempts(next, username, h))
            + (if Authenticated(h) then [AddIncomingMessageListener(next, session)] else [Disconnect(next)])
    ensures SentIn(OpenLog(next, session, username, password, h))
         == if Authenticated(h) then [Send(session, SuccessMessage(username))] else [Send(session, FailMessage())]
  {
    var log := OpenLog(next, session, username, password, h);
    var attempts := LoginAttempts(next, username, h);
    var tail := if Authenticated(h) then [Call(AddIncomingMessageListener(next, session), false), Send(session, SuccessMessage(username))]
                else [Call(Disconnect(next), false), Send(session, FailMessage())];
    var first: ImEvent := Connect(username, password, Some(next));
    assert log == [first] + attempts + tail;
    LoginAttemptsFilters(next, username, h);
    CallsAppend([first] + attempts, tail);
    CallsAppend([first], attempts);
    SentAppend([first] + attempts, tail);
    SentAppend([first], attempts);
    PairFilters(tail[0], tail[1]);
  }

  lemma UnconnectedLogFilters(next: ConnId, session: SessionId, username: string, password: string, h: Handshake)
    requires !h.connects
    ensures CallsIn(OpenLog(next, session, username, password, h)) == []
    ensures SentIn(OpenLog(next, session, username, password, h)) == [Send(session, FailMessage())]
  {
    var log := OpenLog(next, session, username, password, h);
    assert log == [log[0]] + [log[1], log[2]];
    CallsAppend([log[0]], [log[1], log[2]]);
    SentAppend([log[0]], [log[1], log[2]]);
    PairFilters(log[1], log[2]);
  }

  lemma CloseLogFilters(c: ConnId, session: SessionId, presenceOk: bool)
    ensures CallsIn(CloseLog(c, session, presenceOk)) == [SendStanza(c, Unavailable), Disconnect(c)]
    ensures SentIn(CloseLog(c, session, presenceOk)) == if presenceOk then [] else [Send(session, FailMessage())]
  {
    var presence: ImEvent := Call(SendStanza(c, Unavailable), !presenceOk);
    var disconnect: ImEvent := Call(Disconnect(c), false);
    if presenceOk {
      assert CloseLog(c, session, presenceOk) == [presence, disconnect];
      PairFilters(presence, disconnect);
    } else {
      var fail: ImEvent := Send(session, FailMessage());
      assert CloseLog(c, session, presenceOk) == [presence] + [fail, disconnect];
      CallsAppend([presence], [fail, disconnect]);
      SentAppend([presence], [fail, disconnect]);
      PairFilters(fail, disconnect);
    }
  }

  /** The handshake itself adds no listener and disconnects nothing. */
  lemma LoginAttemptsEffects(next: ConnId, username: string, h: Handshake, c: ConnId)
    ensures Listeners(CallsIn(LoginAttempts(next, username, h)), c) == []
    ensures Occurrences(CallsIn(LoginAttempts(next, username, h)), Disconnect(c)) == 0
  {
    LoginAttemptsFilters(next, username, h);
    var attempts := CallsIn(LoginAttempts(next, username, h));
    assert forall op | op in attempts :: op.Login? || op.CreateAccount?;
    NoListeners(attempts, c);
  }

  /** The last call of an open that connected adds the listener or disconnects. */
  lemma ClosingCallEffects(attempts: seq<Op>, last: Op, c: ConnId)
    requires Listeners(attempts, c) == [] && Occurrences(attempts, Disconnect(c)) == 0
    ensures Listeners(attempts + [last], c) == ListenerAdded(last, c)
    ensures Occurrences(attempts + [last], Disconnect(c)) == if last == Disconnect(c) then 1 else 0
  {
    ListenersAppend(attempts, [last], c);
    OccurrencesAppend(attempts, [last], Disconnect(c));
  }

  lemma OpenLogEffects(next: ConnId, session: SessionId, username: string, password: string, h: Handshake, c: ConnId)
    ensures ListenersOn(OpenLog(next, session, username, password, h), c)
         == if h.connects && Authenticated(h) && c == next then [session] else []
    ensures Disconnects(OpenLog(next, session, username, password, h), c)
         == if h.connects && !Authenticated(h) && c == next then 1 else 0
  {
    if !h.connects {
      UnconnectedLogFilters(next, session, username, password, h);
    } else {
      var attempts := CallsIn(LoginAttempts(next, username, h));
      LoginAttemptsEffects(next, username, h, c);
      ConnectedLogFilters(next, session, username, password, h);
      if Authenticated(h) {
        ClosingCallEffects(attempts, AddIncomingMessageListener(next, session), c);
      } else {
        ClosingCallEffects(attempts, Disconnect(next), c);
      }
    }
  }

  lemma CloseLogEffects(c0: ConnId, session: SessionId, presenceOk: bool, c: ConnId)
    ensures ListenersOn(CloseLog(c0, session, presenceOk), c) == []
    ensures Disconnects(CloseLog(c0, session, presenceOk), c) == if c == c0 then 1 else 0
  {
    CloseLogFilters(c0, session, presenceOk);
    assert Listeners([SendStanza(c0, Unavailable), Disconnect(c0)], c) == [] by {
      NoListeners([SendStanza(c0, Unavailable), Disconnect(c0)], c);
    }
  }

  // ---------------------------------------------------------------------------
  // The invariant is kept by every operation

  /** A session is bridged to the connection just created, which gains that
      session's listener and nothing else. */
  lemma AdmitKeepsConsistent(st: State, st': State, session: SessionId)
    requires Consistent(st)
    requires st'.connections == st.connections[session := st.created] && st'.created == st.created + 1
    requires forall c: ConnId :: ListenersOn(st'.trace, c) == ListenersOn(st.trace, c) + if c == st.created then [session] else []
    requires forall c: ConnId :: Disconnects(st'.trace, c) == Disconnects(st.trace, c)
    ensures Consistent(st')
  {
    var next := st.created;
    forall s | s in st'.connections && s != session
      ensures st'.connections[s] == st.connections[s] < next
    {
    }
    assert Injective(st'.connections);
    forall s | s in st'.connections
      ensures Disconnects(st'.trace, st'.connections[s]) == 0 && ListenersOn(st'.trace, st'.connections[s]) == [s]
    {
      if s == session {
        assert ListenersOn(st.trace, next) == [];
      } else {
        assert ListenersOn(st'.trace, st.connections[s]) == ListenersOn(st.trace, st.connections[s]) + [];
      }
    }
    forall c: ConnId | st'.created <= c
      ensures Disconnects(st'.trace, c) == 0 && ListenersOn(st'.trace, c) == []
    {
      assert ListenersOn(st'.trace, c) == ListenersOn(st.trace, c) + [];
    }
  }

  /** A session's entry is removed and connection `d`, which no remaining entry
      uses and which had not been disconnected, is disconnected once. */
  lemma RemoveKeepsConsistent(st: State, st': State, session: SessionId, d: ConnId)
    requires Consistent(st)
    requires st'.connections == st.connections - {session} && st.created <= st'.created
    requires d < st'.created && Disconnects(st.trace, d) == 0
    requires forall s | s in st'.connections :: st'.connections[s] != d
    requires forall c: ConnId :: ListenersOn(st'.trace, c) == ListenersOn(st.trace, c)
    requires forall c: ConnId :: Disconnects(st'.trace, c) == Disconnects(st.trace, c) + if c == d then 1 else 0
    ensures Consistent(st')
  {
  }

  /** Only the log grows, by calls that neither add listeners nor disconnect. */
  lemma LogOnlyKeepsConsistent(st: State, st': State)
    requires Consistent(st)
    requires st'.connections == st.connections && st'.created == st.created
    requires forall c: ConnId :: ListenersOn(st'.trace, c) == ListenersOn(st.trace, c)
    requires forall c: ConnId :: Disconnects(st'.trace, c) == Disconnects(st.trace, c)
    ensures Consistent(st')
  {
  }

  lemma OpenKeepsConsistent(st: State, session: SessionId, username: string, password: string, h: Handshake)
    requires Consistent(st)
    ensures Consistent(OpenStep(st, session, username, password, h))
  {
    var st' := OpenStep(st, session, username, password, h);
    var next := st.created;
    var log := OpenLog(next, session, username, password, h);
    assert st'.trace == st.trace + log;
    if !h.connects {
      forall c: ConnId
        ensures ListenersOn(st'.trace, c) == ListenersOn(st.trace, c)
        ensures Disconnects(st'.trace, c) == Disconnects(st.trace, c)
      {
        ListenersOnAppend(st.trace, log, c);
        DisconnectsAppend(st.trace, log, c);
        OpenLogEffects(next, session, username, password, h, c);
      }
      LogOnlyKeepsConsistent(st, st');
    } else if Authenticated(h) {
      forall c: ConnId
        ensures ListenersOn(st'.trace, c) == ListenersOn(st.trace, c) + if c == next then [session] else []
        ensures Disconnects(st'.trace, c) == Disconnects(st.trace, c)
      {
        ListenersOnAppend(st.trace, log, c);
        DisconnectsAppend(st.trace, log, c);
        OpenLogEffects(next, session, username, password, h, c);
      }
      AdmitKeepsConsistent(st, st', session);
    } else {
      forall c: ConnId
        ensures ListenersOn(st'.trace, c) == ListenersOn(st.trace, c)
        ensures Disconnects(st'.trace, c) == Disconnects(st.trace, c) + if c == next then 1 else 0
      {
        ListenersOnAppend(st.trace, log, c);
        DisconnectsAppend(st.trace, log, c);
        OpenLogEffects(next, session, username, password, h, c);
      }
      RemoveKeepsConsistent(st, st', session, next);
    }
  }

  lemma CloseKeepsConsistent(st: State, session: SessionId, presenceOk: bool)
    requires Consistent(st)
    ensures Consistent(CloseStep(st, session, presenceOk))
  {
    if session in st.connections {
      var st' := CloseStep(st, session, presenceOk);
      var c0 := st.connections[session];
      var log := CloseLog(c0, session, presenceOk);
      forall c: ConnId
        ensures ListenersOn(st'.trace, c) == ListenersOn(st.trace, c)
        ensures Disconnects(st'.trace, c) == Disconnects(st.trace, c) + if c == c0 then 1 else 0
      {
        ListenersOnAppend(st.trace, log, c);
        DisconnectsAppend(st.trace, log, c);
        CloseLogEffects(c0, session, presenceOk, c);
      }
      RemoveKeepsConsistent(st, st', session, c0);
    }
  }

  lemma HandleKeepsConsistent(st: State, m: WebsocketMessage, session: SessionId, fails: bool, presenceOk: bool)
    requires Consistent(st)
    ensures Consistent(HandleStep(st, m, session, fails, presenceOk))
  {
    if session in st.connections {
      if m.messageType == Some(Logout) {
        CloseKeepsConsistent(st, session, presenceOk);
      } else if DispatchedOp(m, session, st.connections[session]).Some? {
        var op := DispatchedOp(m, session, st.connections[session]).value;
        var st' := HandleStep(st, m, session, fails, presenceOk);
        var log := [Call(op, fails && Raises(op))];
        assert CallsIn(log) == [op];
        forall c: ConnId
          ensures ListenersOn(st'.trace, c) == ListenersOn(st.trace, c)
          ensures Disconnects(st'.trace, c) == Disconnects(st.trace, c)
        {
          ListenersOnAppend(st.trace, log, c);
          DisconnectsAppend(st.trace, log, c);
          NoListeners([op], c);
        }
        LogOnlyKeepsConsistent(st, st');
      }
    }
  }
}
