/** The calls the controller of the current package makes on OpenfireService, and
    which of them can raise an exception back into the controller. The service
    itself (Smack connections, SASL login, account registration, multi-user chat)
    is not part of this model: its answers are inputs. */
module OpenfireAdapter {
  import opened Common

  datatype Op =
    | Login(conn: ConnId)
    | CreateAccount(username: string)
    | AddIncomingMessageListener(conn: ConnId, session: SessionId)
    | SendMessage(conn: ConnId, content: Option<string>, to: Option<string>)
    | SendRoomMessage(conn: ConnId, content: Option<string>, roomId: Option<string>)
    | CreateRoom(conn: ConnId, session: SessionId, roomId: Option<string>)
    | JoinRoom(conn: ConnId, session: SessionId, roomId: Option<string>)
    | LeaveRoom(conn: ConnId, roomId: Option<string>)
    | DestroyRoom(conn: ConnId, roomId: Option<string>)
    | SendStanza(conn: ConnId, presence: PresenceType)
    | Disconnect(conn: ConnId)

  /** Whether a failure inside `op` reaches the caller as an exception. createRoom
      and joinRoom catch and print every exception themselves; disconnect catches
      its own errors; adding a listener does not fail. */
  predicate Raises(op: Op)
  {
    !(op.CreateRoom? || op.JoinRoom? || op.Disconnect? || op.AddIncomingMessageListener?)
  }
}
