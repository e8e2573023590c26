# WebSocket-to-XMPP session bridge

A Dafny model of the part of the chat server that bridges browser WebSocket
sessions to XMPP (Openfire) connections. There are two copies of the bridge:

- the current package: `ImWebSocketController` and `ResponseHelper`;
- the older package: `WebSocketToXmppBridge` and `XmppToWebSocketTransmitter`.

Both keep a `CONNECTIONS` map from a client WebSocket session to the backend
connection opened for it. The controller (or bridge) does four things:

- On open, it connects as the user. It logs in; if that fails, it creates the
  account and logs in again. On success it stores the session and adds an
  incoming-chat listener. Otherwise it disconnects and reports FAIL (ERROR in the
  older package).
- It dispatches each client request to one backend operation and swallows any
  failure.
- On close, on error and on LOGOUT, it tears the session down: it sends presence
  "unavailable", disconnects and removes the entry.
- Through a listener, it relays each chat stanza that reaches the connection to
  its session, as a WebsocketMessage.

How the model is built:

- **The backend is an oracle.** The backend adapters (`OpenfireService`,
  `XmppClient`) are not modelled. Their answers are inputs:
  - a `Handshake` says whether connect returns a connection, and whether the
    first login, the account creation and the retried login succeed;
  - `fails` says whether a dispatched operation fails;
  - `presenceOk` says whether the "unavailable" presence is delivered.

  Whether a failure reaches the controller as an exception follows the adapter
  code. Room creation, room joining and disconnect catch their own exceptions.
- **Every effect goes into one ordered log.** This covers each backend call
  with its outcome, each message handed to a client session, and each client
  session closed.
- **New connections are always fresh.** They are numbered by a counter, so a
  new connection never equals an earlier one.
- **Each operation has a step function.** The step function works on the state
  (map, counter, log). The class methods update their fields step by step, and
  each is proved to end in the state its step function gives.
- **The invariant.** Every method also keeps the invariant `Consistent`:
  - no two sessions share a connection;
  - a bridged session's connection has been created, has not been disconnected,
    and carries exactly one listener, its own;
  - no connection is disconnected twice.

  Lemmas on the step functions state what each operation promises. Lemmas over
  any sequence of WebSocket callbacks state what holds over a whole lifetime.

Files:

- `common.dfy`: the types shared by both packages, the log and its filters.
- `im_messages.dfy`, `openfire_adapter.dfy`, `response_helper.dfy`,
  `im_controller.dfy`, `im_lifecycle.dfy`: the current package.
- `bridge_messages.dfy`, `xmpp_client.dfy`, `transmitter.dfy`, `bridge.dfy`,
  `bridge_lifecycle.dfy`: the older package.

Three behaviours of the code are easy to misread, and the model follows the
code in each:

- Account creation runs on any login failure. The log line at
  `ImWebSocketController.java:53` and the comment at
  `WebSocketToXmppBridge.java:55` assume that the user does not exist. But the
  catch at `ImWebSocketController.java:52` (`WebSocketToXmppBridge.java:54`)
  takes every login exception, whatever its cause.
- A failed presence at teardown is not only logged: the client is sent FAIL
  (ERROR in the older package) before the disconnect
  (`ImWebSocketController.java:120-123`, `WebSocketToXmppBridge.java:120-123`).
- A failed handshake does not close the client WebSocket session.
  `sendFailAndDisconnect` (`ImWebSocketController.java:136-141`) and
  `handleXMPPGenericException` (`WebSocketToXmppBridge.java:130-135`) disconnect
  the backend connection, send FAIL/ERROR and remove the entry, and nothing
  more. Only a null connection closes the session
  (`ImWebSocketController.java:41`, `WebSocketToXmppBridge.java:43`).

## Model

| member | source | states |
|---|---|---|
| ImController.ImWebSocketController.constructor | src/main/java/com/feiwin/openfirewebsocketserver/controller/ImWebSocketController.java:28 | The map starts empty, no connection has been created yet, the log is empty, and the invariant holds. |
| ImController.ImWebSocketController.Open | src/main/java/com/feiwin/openfirewebsocketserver/controller/ImWebSocketController.java:31-68 | open leaves exactly the state `OpenStep` gives (map, connection counter, log) and keeps the invariant. |
| ImController.ImWebSocketController.Authenticate | src/main/java/com/feiwin/openfirewebsocketserver/controller/ImWebSocketController.java:48-60 | The nested try ends logged in exactly when the first login succeeds, or when the account creation and the retried login both succeed. It logs exactly those attempts and does not touch the map. |
| ImController.ImWebSocketController.HandleMessage | src/main/java/com/feiwin/openfirewebsocketserver/controller/ImWebSocketController.java:70-108 | handleMessage leaves exactly the state `HandleStep` gives and keeps the invariant. |
| ImController.ImWebSocketController.Close | src/main/java/com/feiwin/openfirewebsocketserver/controller/ImWebSocketController.java:110-128 | close leaves exactly the state `CloseStep` gives and keeps the invariant. |
| ImController.ImWebSocketController.OnError | src/main/java/com/feiwin/openfirewebsocketserver/controller/ImWebSocketController.java:130-134 | onError has the same effect as close. |
| ImController.ImWebSocketController.Invoke | src/main/java/com/feiwin/openfirewebsocketserver/controller/ImWebSocketController.java:79-106 | A dispatched call is logged once. An exception is recorded only when the operation can raise one, and it is caught: the map does not change. |
| ImController.ImWebSocketController.SendFailAndDisconnect | src/main/java/com/feiwin/openfirewebsocketserver/controller/ImWebSocketController.java:136-141 | It disconnects the connection, then sends FAIL, and removes the session's entry. |
| ImController.DispatchedOp | src/main/java/com/feiwin/openfirewebsocketserver/controller/ImWebSocketController.java:80-103 | A dispatched request never disconnects the connection and never adds a listener to it. |
| ImController.OpenKeepsConsistent | src/main/java/com/feiwin/openfirewebsocketserver/controller/ImWebSocketController.java:31-68 | open keeps the invariant: the map stays injective, the new connection carries only this session's listener, and no connection is disconnected twice. |
| ImController.CloseKeepsConsistent | src/main/java/com/feiwin/openfirewebsocketserver/controller/ImWebSocketController.java:110-128 | close keeps the invariant. |
| ImController.HandleKeepsConsistent | src/main/java/com/feiwin/openfirewebsocketserver/controller/ImWebSocketController.java:70-108 | handleMessage keeps the invariant. |
| ImLifecycle.OpenWithoutConnection | src/main/java/com/feiwin/openfirewebsocketserver/controller/ImWebSocketController.java:35-46 | If connect returns null, the client gets exactly one FAIL, then its session is closed. No backend call follows and the map is unchanged. |
| ImLifecycle.OpenBackendCalls | src/main/java/com/feiwin/openfirewebsocketserver/controller/ImWebSocketController.java:48-65 | Gives the exact backend call sequence for each handshake outcome. A failed first login leads to one createAccount(username), then to one retried login if the creation succeeded. The sequence ends with adding the listener when logged in, or with a disconnect otherwise. |
| ImLifecycle.OpenProvisionsAtMostOnce | src/main/java/com/feiwin/openfirewebsocketserver/controller/ImWebSocketController.java:48-56 | One open calls createAccount at most once, exactly when the first login fails, and calls login at most twice. |
| ImLifecycle.OpenRejected | src/main/java/com/feiwin/openfirewebsocketserver/controller/ImWebSocketController.java:57-60 | A failed handshake disconnects the new connection once, then sends FAIL as the only message. The session has no entry afterwards, and the client WebSocket session is not closed. |
| ImLifecycle.OpenAdmitted | src/main/java/com/feiwin/openfirewebsocketserver/controller/ImWebSocketController.java:62-67 | A successful handshake stores the session with a connection no other session uses, and changes no other entry. Exactly one listener, this session's, is on that connection. The only message sent is SUCCESS to the username, and nothing is disconnected. |
| ImLifecycle.HandleWithoutEntry | src/main/java/com/feiwin/openfirewebsocketserver/controller/ImWebSocketController.java:73-77 | A message on a session without an entry changes nothing. |
| ImLifecycle.HandleDispatch | src/main/java/com/feiwin/openfirewebsocketserver/controller/ImWebSocketController.java:80-98 | Each request type except LOGOUT makes exactly the matching backend call, on the session's connection, with the message's content and its recipient or room. It sends nothing to the client and leaves the map unchanged. |
| ImLifecycle.HandleSwallowsFailure | src/main/java/com/feiwin/openfirewebsocketserver/controller/ImWebSocketController.java:104-106 | A failing operation leaves the same calls, the same client messages and the same map as one that succeeds. |
| ImLifecycle.HandleNonDispatched | src/main/java/com/feiwin/openfirewebsocketserver/controller/ImWebSocketController.java:99-102 | LOGOUT has the effect of close. SUCCESS, FAIL and a missing type change nothing. |
| ImLifecycle.CloseWithoutEntry | src/main/java/com/feiwin/openfirewebsocketserver/controller/ImWebSocketController.java:112-116 | Tearing down a session without an entry changes nothing. |
| ImLifecycle.CloseTearsDown | src/main/java/com/feiwin/openfirewebsocketserver/controller/ImWebSocketController.java:118-127 | Teardown sends presence "unavailable", then disconnects. It sends FAIL exactly when the presence fails, and removes only that session's entry. |
| ImLifecycle.CloseIdempotent | src/main/java/com/feiwin/openfirewebsocketserver/controller/ImWebSocketController.java:110-134 | A second close, onError or LOGOUT changes nothing, so the connection is disconnected exactly once. |
| ImLifecycle.IncomingMessageReachesOnlyItsSession | src/main/java/com/feiwin/openfirewebsocketserver/controller/ImWebSocketController.java:65 | A chat message reaching a bridged connection is relayed to that session only. It is relayed exactly once when both addresses have a localpart. |
| ImLifecycle.RunBridged | src/main/java/com/feiwin/openfirewebsocketserver/controller/ImWebSocketController.java:62-140 | After any sequence of callbacks, a session has an entry exactly when its last deciding callback was an open that logged in. |
| ImLifecycle.RunKeepsConsistent | src/main/java/com/feiwin/openfirewebsocketserver/controller/ImWebSocketController.java:31-141 | Any sequence of callbacks keeps the invariant. |
| ImLifecycle.AtMostOneDisconnectPerConnection | src/main/java/com/feiwin/openfirewebsocketserver/controller/ImWebSocketController.java:110-141 | Starting from an empty map, no connection is ever disconnected twice and no two sessions ever share a connection. |
| ResponseHelper.SendResponse | src/main/java/com/feiwin/openfirewebsocketserver/utils/ResponseHelper.java:32-45 | Sends at most one message, to the given session only, and exactly one when both addresses have a localpart. The message carries both localparts, the body and the type tag, with roomId left null. |
| ResponseHelper.SendPersonalResponse | src/main/java/com/feiwin/openfirewebsocketserver/utils/ResponseHelper.java:47-49 | Everything it sends goes to the listener's session and is tagged PERSONAL_MESSAGE. It sends exactly one message when both addresses have a localpart, and none otherwise. |
| ResponseHelper.SendGroupResponse | src/main/java/com/feiwin/openfirewebsocketserver/utils/ResponseHelper.java:51-53 | Everything it sends goes to the listener's session and is tagged ROOM_MESSAGE. It sends exactly one message when both addresses have a localpart, and none otherwise. |
| ResponseHelper.PersonalMessageRoundTrip | src/main/java/com/feiwin/openfirewebsocketserver/utils/ResponseHelper.java:32-49 | A PERSONAL_MESSAGE request reaches the recipient's session as the same message, with the sender in `from` and roomId null. |
| ResponseHelper.RoomMessageRoundTrip | src/main/java/com/feiwin/openfirewebsocketserver/utils/ResponseHelper.java:32-53 | A ROOM_MESSAGE reaches each occupant with the room's name in `from`, not the sender's. |
| Bridge.WebSocketToXmppBridge.constructor | src/main/java/com/sergiomartinrubio/springxmppwebsocketsecurity/bridge/WebSocketToXmppBridge.java:26 | The map starts empty, the log is empty, and the invariant holds. |
| Bridge.WebSocketToXmppBridge.StartSession | src/main/java/com/sergiomartinrubio/springxmppwebsocketsecurity/bridge/WebSocketToXmppBridge.java:30-71 | startSession leaves exactly the state `StartSessionStep` gives and keeps the invariant. |
| Bridge.WebSocketToXmppBridge.Authenticate | src/main/java/com/sergiomartinrubio/springxmppwebsocketsecurity/bridge/WebSocketToXmppBridge.java:50-63 | The nested try ends logged in exactly when the first login succeeds, or when the account creation (with the placeholder password) and the retried login both succeed. |
| Bridge.WebSocketToXmppBridge.HandleMessage | src/main/java/com/sergiomartinrubio/springxmppwebsocketsecurity/bridge/WebSocketToXmppBridge.java:73-109 | handleMessage leaves exactly the state `HandleStep` gives and keeps the invariant. |
| Bridge.WebSocketToXmppBridge.Disconnect | src/main/java/com/sergiomartinrubio/springxmppwebsocketsecurity/bridge/WebSocketToXmppBridge.java:111-128 | disconnect leaves exactly the state `DisconnectStep` gives and keeps the invariant. |
| Bridge.WebSocketToXmppBridge.Invoke | src/main/java/com/sergiomartinrubio/springxmppwebsocketsecurity/bridge/WebSocketToXmppBridge.java:80-108 | A dispatched call is logged once. An exception is recorded only when the operation can raise one, and it is caught: the map does not change. |
| Bridge.WebSocketToXmppBridge.HandleXmppGenericException | src/main/java/com/sergiomartinrubio/springxmppwebsocketsecurity/bridge/WebSocketToXmppBridge.java:130-135 | It disconnects the connection, then sends ERROR, and removes the session's entry. |
| Bridge.DispatchedOp | src/main/java/com/sergiomartinrubio/springxmppwebsocketsecurity/bridge/WebSocketToXmppBridge.java:82-105 | A dispatched request never disconnects the connection and never adds a listener to it. |
| Bridge.StartKeepsConsistent | src/main/java/com/sergiomartinrubio/springxmppwebsocketsecurity/bridge/WebSocketToXmppBridge.java:30-71 | startSession keeps the invariant. |
| Bridge.DisconnectKeepsConsistent | src/main/java/com/sergiomartinrubio/springxmppwebsocketsecurity/bridge/WebSocketToXmppBridge.java:111-128 | disconnect keeps the invariant. |
| Bridge.HandleKeepsConsistent | src/main/java/com/sergiomartinrubio/springxmppwebsocketsecurity/bridge/WebSocketToXmppBridge.java:73-109 | handleMessage keeps the invariant. |
| BridgeLifecycle.StartWithoutConnection | src/main/java/com/sergiomartinrubio/springxmppwebsocketsecurity/bridge/WebSocketToXmppBridge.java:37-48 | If connect returns null, the client gets exactly one ERROR, then its session is closed. No backend call follows and the map is unchanged. |
| BridgeLifecycle.StartBackendCalls | src/main/java/com/sergiomartinrubio/springxmppwebsocketsecurity/bridge/WebSocketToXmppBridge.java:37-68 | Connect uses the placeholder password. The lemma gives the exact call sequence for each handshake outcome. A failed first login leads to one createAccount(username, placeholder password), then to one retried login if the creation succeeded. The sequence ends with adding the listener or with a disconnect. |
| BridgeLifecycle.StartProvisionsAtMostOnce | src/main/java/com/sergiomartinrubio/springxmppwebsocketsecurity/bridge/WebSocketToXmppBridge.java:50-59 | One startSession calls createAccount at most once, exactly when the first login fails, and calls login at most twice. |
| BridgeLifecycle.StartRejected | src/main/java/com/sergiomartinrubio/springxmppwebsocketsecurity/bridge/WebSocketToXmppBridge.java:60-63 | A failed handshake disconnects the new connection once, then sends ERROR as the only message. The session has no entry afterwards, and the client WebSocket session is not closed. |
| BridgeLifecycle.StartAdmitted | src/main/java/com/sergiomartinrubio/springxmppwebsocketsecurity/bridge/WebSocketToXmppBridge.java:65-70 | A successful handshake stores the session with a connection no other session uses, and exactly one listener, this session's, is on it. The only message sent is LOGGED_IN to the username, and nothing is disconnected. |
| BridgeLifecycle.HandleWithoutEntry | src/main/java/com/sergiomartinrubio/springxmppwebsocketsecurity/bridge/WebSocketToXmppBridge.java:74-78 | A message on a session without an entry changes nothing. |
| BridgeLifecycle.HandleDispatch | src/main/java/com/sergiomartinrubio/springxmppwebsocketsecurity/bridge/WebSocketToXmppBridge.java:82-100 | Each request type except LOG_OUT makes exactly the matching XmppClient call, on the session's connection, with the message's content and its recipient or group. It sends nothing and leaves the map unchanged. |
| BridgeLifecycle.HandleSwallowsFailure | src/main/java/com/sergiomartinrubio/springxmppwebsocketsecurity/bridge/WebSocketToXmppBridge.java:106-108 | A failing operation leaves the same calls, the same client messages and the same map as one that succeeds. |
| BridgeLifecycle.HandleNonDispatched | src/main/java/com/sergiomartinrubio/springxmppwebsocketsecurity/bridge/WebSocketToXmppBridge.java:101-104 | LOG_OUT has the effect of disconnect. LOGGED_IN, ERROR, FORBIDDEN and a missing type change nothing. |
| BridgeLifecycle.DisconnectWithoutEntry | src/main/java/com/sergiomartinrubio/springxmppwebsocketsecurity/bridge/WebSocketToXmppBridge.java:112-116 | Tearing down a session without an entry changes nothing. |
| BridgeLifecycle.DisconnectTearsDown | src/main/java/com/sergiomartinrubio/springxmppwebsocketsecurity/bridge/WebSocketToXmppBridge.java:118-127 | Teardown sends presence "unavailable", then disconnects. It sends ERROR exactly when the presence fails, and removes only that session's entry. |
| BridgeLifecycle.DisconnectIdempotent | src/main/java/com/sergiomartinrubio/springxmppwebsocketsecurity/bridge/WebSocketToXmppBridge.java:111-128 | A second disconnect, whether from LOG_OUT, a closed session or a session error, changes nothing. The connection is disconnected exactly once. |
| BridgeLifecycle.IncomingMessageReachesOnlyItsSession | src/main/java/com/sergiomartinrubio/springxmppwebsocketsecurity/bridge/WebSocketToXmppBridge.java:68 | A chat message reaching a bridged connection is relayed to that session only. It is relayed exactly once when both addresses have a localpart. |
| BridgeLifecycle.RunBridged | src/main/java/com/sergiomartinrubio/springxmppwebsocketsecurity/bridge/WebSocketToXmppBridge.java:65-134 | After any sequence of callbacks, a session has an entry exactly when its last deciding callback was a startSession that logged in. |
| BridgeLifecycle.RunKeepsConsistent | src/main/java/com/sergiomartinrubio/springxmppwebsocketsecurity/bridge/WebSocketToXmppBridge.java:30-135 | Any sequence of callbacks keeps the invariant. |
| BridgeLifecycle.AtMostOneDisconnectPerConnection | src/main/java/com/sergiomartinrubio/springxmppwebsocketsecurity/bridge/WebSocketToXmppBridge.java:111-135 | Starting from an empty map, no connection is ever disconnected twice and no two sessions ever share a connection. |
| XmppToWebSocketTransmitter.SendResponse | src/main/java/com/sergiomartinrubio/springxmppwebsocketsecurity/xmpp/XmppToWebSocketTransmitter.java:31-44 | Sends at most one message, to the given session only, and exactly one when both addresses have a localpart. The message carries both localparts, the body and the type tag, with groupId left null. |
| XmppToWebSocketTransmitter.SendPersonalResponse | src/main/java/com/sergiomartinrubio/springxmppwebsocketsecurity/xmpp/XmppToWebSocketTransmitter.java:23-25 | Everything it sends goes to the listener's session and is tagged PERSONAL_MESSAGE. It sends exactly one message when both addresses have a localpart, and none otherwise. |
| XmppToWebSocketTransmitter.SendGroupResponse | src/main/java/com/sergiomartinrubio/springxmppwebsocketsecurity/xmpp/XmppToWebSocketTransmitter.java:27-29 | Everything it sends goes to the listener's session and is tagged GROUP_MESSAGE. It sends exactly one message when both addresses have a localpart, and none otherwise. |
| XmppToWebSocketTransmitter.PersonalMessageRoundTrip | src/main/java/com/sergiomartinrubio/springxmppwebsocketsecurity/xmpp/XmppToWebSocketTransmitter.java:23-44 | A PERSONAL_MESSAGE request reaches the recipient's session as the same message, with the sender in `from` and groupId null. |
| XmppToWebSocketTransmitter.GroupMessageRoundTrip | src/main/java/com/sergiomartinrubio/springxmppwebsocketsecurity/xmpp/XmppToWebSocketTransmitter.java:27-44 | A GROUP_MESSAGE reaches each occupant with the group's name in `from` and groupId null. |

## Left out

- The older bridge's switch does not compile as written. It names
  `ROOM_MESSAGE`, `CREATE_ROOM`, `JOIN_ROOM`, `LEAVE_ROOM`, `DESTROY_ROOM` and
  `LOGOUT`, and the methods `sendRoomMessage`, `createRoom`, `joinRoom` and
  `leaveRoom`. None of these exists in its own `MessageType` or in `XmppClient`.
  The model dispatches each request of that package's enum to the XmppClient
  method for it:
  - GROUP_MESSAGE to sendGroupMessage;
  - CREATE_GROUP to createGroup;
  - JOIN_GROUP to joinGroup;
  - LEAVE_GROUP to leaveGroup;
  - DESTROY_GROUP to destroyRoom;
  - LOG_OUT to disconnect.
- The `IOException` that `session.close()` may throw when connect returned null
  is rethrown as a `RuntimeException`. The model takes the close to succeed.
- Concurrency is not modelled: the `CONNECTIONS` map is a plain `HashMap`
  shared by all sessions, and listener callbacks arrive on backend threads. The
  model handles one callback at a time.
- The JSON encoder and decoder of `WebsocketMessage` are not modelled. A
  message that cannot be decoded never reaches `handleMessage`.
- The internals of the backend adapters are not modelled: the Smack
  connections, SASL, account registration over the admin connection, and room
  configuration. Their outcomes are inputs, and which failures propagate
  follows their catch blocks.
- The message listeners that createRoom/createGroup and joinRoom/joinGroup
  register on a room are recorded only as the dispatched call. The per-room
  relay is stated on its own (`SendGroupResponse` and the round-trip lemmas),
  not tied to a room membership state.
- Logging is not modelled, and neither is the printing of stack traces.
- `WebSocketTextMessageHelper` is not part of this model. Its send is recorded
  as one Send event, the same as `ResponseHelper.send`, which catches and logs
  its own failures.
- ResponseHelper.SendResponse: when the sender or the recipient address has no
  localpart, the Java code throws a NullPointerException inside the listener
  thread. The model records that outcome as "nothing is sent" and does not
  model the exception.
- XmppToWebSocketTransmitter.SendResponse: the same null-localpart case as in
  `ResponseHelper` throws inside the listener. It is likewise recorded as
  "nothing is sent", so "exactly one send per callback" is proved only when both
  addresses have a localpart.
- `ResponseHelper.send` catches IO and encoding failures and only logs them.
  The model therefore gives a send no failure outcome: each hand-over to a
  session is one Send event, and no caller ever sees an exception from it.
