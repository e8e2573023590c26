/** Types shared by both copies of the WebSocket-to-XMPP bridge: the identities the
    bridge keys its state on, the XMPP stanzas it relays, and the entries of the
    ordered log through which the model observes every side effect. */
module Common {

  /** A Java reference that may be null. */
  datatype Option<+T> = None | Some(value: T)

  /** Identity of one client WebSocket session (the key of the CONNECTIONS map). */
  type SessionId = nat

  /** Identity of one XMPPTCPConnection object. Connections are numbered in the
      order in which the backend adapter creates them, so a new one never equals
      an earlier one. */
  type ConnId = nat

  /** An XMPP address `localpart@domain/resource`; a server or service address
      has no localpart. */
  datatype Jid = Jid(localpart: Option<string>, domain: string, resource: Option<string>)

  /** A chat stanza as the backend delivers it to a message listener. */
  datatype XmppMessage = XmppMessage(from: Jid, to: Jid, body: Option<string>)

  /** The presence type the bridge announces before it disconnects. */
  datatype PresenceType = Unavailable

  /** The backend's answers during one open, in the order they are asked for:
      whether connect returns a connection, whether the first login, the account
      creation and the retried login succeed. An answer that is never asked for
      is ignored. */
  datatype Handshake = Handshake(connects: bool, login: bool, createAccount: bool, retryLogin: bool)

  /** The handshake ends logged in: at the first login, or at the login retried
      after the account was created. */
  predicate Authenticated(h: Handshake)
  {
    h.login || (h.createAccount && h.retryLogin)
  }

  /** The stanza that the recipient's connection receives when user `sender`
      (logged in as sender@domain/resource) sends a one-to-one chat message to
      `to`: both adapters address the chat to `to + "@" + domain`. */
  function ChatDelivery(sender: string, resource: Option<string>, domain: string,
                        content: Option<string>, to: string): (m: XmppMessage)
    ensures m.from.localpart == Some(sender) && m.to.localpart == Some(to)
    ensures m.from.domain == domain == m.to.domain && m.body == content
  {
    XmppMessage(Jid(Some(sender), domain, resource), Jid(Some(to), domain, None), content)
  }

  /** The stanza that occupant `occupant` (logged in as occupant@domain/resource)
      receives when a message is sent to the multi-user chat room
      `room + "@" + roomDomain`: the room sends it from its own address, with the
      sender's nickname as resource. */
  function RoomDelivery(room: string, roomDomain: string, nickname: string,
                        occupant: string, resource: Option<string>, domain: string,
                        content: Option<string>): (m: XmppMessage)
    ensures m.from.localpart == Some(room) && m.from.domain == roomDomain
    ensures m.to.localpart == Some(occupant) && m.body == content
  {
    XmppMessage(Jid(Some(room), roomDomain, Some(nickname)), Jid(Some(occupant), domain, resource), content)
  }

  /** One observable step of the bridge, in the order it happens:
      - Connect: the adapter was asked to open a backend connection and answered
        with a new connection or with null;
      - Call: any other adapter call, and whether it raised an exception back
        into the bridge;
      - Send: a message handed to a client session's WebSocket endpoint;
      - CloseSession: the client WebSocket session was closed by the bridge. */
  datatype Event<Op, Msg> =
    | Connect(username: string, password: string, result: Option<ConnId>)
    | Call(op: Op, raised: bool)
    | Send(session: SessionId, message: Msg)
    | CloseSession(session: SessionId)

  /** How many times `x` occurs in `s`. */
  function Occurrences<T(==)>(s: seq<T>, x: T): nat
  {
    multiset(s)[x]
  }

  lemma OccurrencesAppend<T>(a: seq<T>, b: seq<T>, x: T)
    ensures Occurrences(a + b, x) == Occurrences(a, x) + Occurrences(b, x)
  {
    assert multiset(a + b) == multiset(a) + multiset(b);
  }

  /** No two sessions share one backend connection. */
  ghost predicate Injective(m: map<SessionId, ConnId>)
  {
    forall s, t | s in m && t in m && s != t :: m[s] != m[t]
  }

  /** The adapter calls recorded in `trace`, in order, without their outcomes. */
  function CallsIn<Op, Msg>(trace: seq<Event<Op, Msg>>): seq<Op>
  {
    if trace == [] then []
    else (if trace[0].Call? then [trace[0].op] else []) + CallsIn(trace[1..])
  }

  /** The messages handed to client sessions in `trace`, in order. */
  function SentIn<Op, Msg>(trace: seq<Event<Op, Msg>>): seq<Event<Op, Msg>>
  {
    if trace == [] then []
    else (if trace[0].Send? then [trace[0]] else []) + SentIn(trace[1..])
  }

  lemma {:induction false} CallsAppend<Op, Msg>(a: seq<Event<Op, Msg>>, b: seq<Event<Op, Msg>>)
    ensures CallsIn(a + b) == CallsIn(a) + CallsIn(b)
  {
    if a == [] {
      assert a + b == b;
    } else {
      assert (a + b)[0] == a[0] && (a + b)[1..] == a[1..] + b;
      CallsAppend(a[1..], b);
    }
  }

  lemma {:induction false} SentAppend<Op, Msg>(a: seq<Event<Op, Msg>>, b: seq<Event<Op, Msg>>)
    ensures SentIn(a + b) == SentIn(a) + SentIn(b)
  {
    if a == [] {
      assert a + b == b;
    } else {
      assert (a + b)[0] == a[0] && (a + b)[1..] == a[1..] + b;
      SentAppend(a[1..], b);
    }
  }

  lemma PairFilters<Op, Msg>(a: Event<Op, Msg>, b: Event<Op, Msg>)
    ensures CallsIn([a, b]) == CallsIn([a]) + CallsIn([b])
    ensures SentIn([a, b]) == SentIn([a]) + SentIn([b])
  {
    assert [a, b] == [a] + [b];
    CallsAppend([a], [b]);
    SentAppend([a], [b]);
  }
}
