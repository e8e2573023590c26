/** The client-facing message of the older package: its WebsocketMessage, which
    names a multi-user chat room by `groupId`, and its MessageType. Every field of
    the Java value may be null, so each is an Option. */
module BridgeMessages {
  import opened Common

  /** The first seven kinds are requests a client sends; LOGGED_IN, ERROR and
      FORBIDDEN are responses the bridge sends. */
  datatype MessageType =
    | PersonalMessage | GroupMessage | CreateGroup | JoinGroup | LeaveGroup | DestroyGroup | LogOut
    | LoggedIn | Error | Forbidden

  datatype WebsocketMessage = WebsocketMessage(
    from: Option<string>,
    to: Option<string>,
    groupId: Option<string>,
    content: Option<string>,
    messageType: Option<MessageType>)

  predicate IsRequest(t: MessageType)
  {
    !(t.LoggedIn? || t.Error? || t.Forbidden?)
  }

  /** The bare ERROR response, every other field null. */
  function ErrorMessage(): (m: WebsocketMessage)
    ensures m.messageType == Some(Error)
    ensures m.from.None? && m.to.None? && m.groupId.None? && m.content.None?
  {
    WebsocketMessage(None, None, None, None, Some(Error))
  }

  /** The LOGGED_IN response of startSession, addressed to the user who logged in. */
  function LoggedInMessage(username: string): (m: WebsocketMessage)
    ensures m.messageType == Some(LoggedIn) && m.to == Some(username)
    ensures m.from.None? && m.groupId.None? && m.content.None?
  {
    WebsocketMessage(None, Some(username), None, None, Some(LoggedIn))
  }
}
