/** The calls the bridge of the older package makes on XmppClient, and which of
    them can raise an exception back into the bridge. The client itself (Smack
    connections, SASL login, account registration, multi-user chat) is not part of
    this model: its answers are inputs. */
module XmppClientAdapter {
  import opened Common

  datatype Op =
    | Login(conn: ConnId)
    | CreateAccount(username: string, password: string)
    | AddIncomingMessageListener(conn: ConnId, session: SessionId)
    | SendMessage(conn: ConnId, content: Option<string>, to: Option<string>)
    | SendGroupMessage(conn: ConnId, content: Option<string>, groupId: Option<string>)
    | CreateGroup(conn: ConnId, session: SessionId, groupId: Option<string>)
    | JoinGroup(conn: ConnId, session: SessionId, groupId: Option<string>)
    | LeaveGroup(conn: ConnId, groupId: Option<string>)
    | DestroyRoom(conn: ConnId, groupId: Option<string>)
    | SendStanza(conn: ConnId, presence: PresenceType)
    | Disconnect(conn: ConnId)

  /** Whether a failure inside `op` reaches the caller as an exception.
      createGroup and joinGroup catch and print every exception themselves;
      disconnect catches its own errors; adding a listener does not fail.
      sendGroupMessage, leaveGroup and destroyRoom wrap theirs in a
      RuntimeException; the rest throw XmppGenericException. */
  predicate Raises(op: Op)
  {
    !(op.CreateGroup? || op.JoinGroup? || op.Disconnect? || op.AddIncomingMessageListener?)
  }
}
