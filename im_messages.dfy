/** The client-facing message of the current package: WebsocketMessage and its
    MessageType. Every field of the Java value may be null, so each is an Option. */
module ImMessages {
  import opened Common

  /** The first seven kinds are requests a client sends; SUCCESS and FAIL are
      responses the bridge sends. */
  datatype MessageType =
    | PersonalMessage | RoomMessage | CreateRoom | JoinRoom | LeaveRoom | DestroyRoom | Logout
    | Success | Fail

  datatype WebsocketMessage = WebsocketMessage(
    from: Option<string>,
    to: Option<string>,
    roomId: Option<string>,
    content: Option<string>,
    messageType: Option<MessageType>)

  predicate IsRequest(t: MessageType)
  {
    !(t.Success? || t.Fail?)
  }

  /** The bare FAIL response, every other field null. */
  function FailMessage(): (m: WebsocketMessage)
    ensures m.messageType == Some(Fail)
    ensures m.from.None? && m.to.None? && m.roomId.None? && m.content.None?
  {
    WebsocketMessage(None, None, None, None, Some(Fail))
  }

  /** The SUCCESS response of an open, addressed to the user who logged in. */
  function SuccessMessage(username: string): (m: WebsocketMessage)
    ensures m.messageType == Some(Success) && m.to == Some(username)
    ensures m.from.None? && m.roomId.None? && m.content.None?
  {
    WebsocketMessage(None, Some(username), None, None, Some(Success))
  }
}
