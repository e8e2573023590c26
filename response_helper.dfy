/** ResponseHelper of the current package: turns a chat stanza the backend delivers
    into the WebsocketMessage sent to the one session whose listener received it.
    `send` catches IOException and EncodeException and only logs them, so handing
    a message to a session never fails for its caller: the model records the
    hand-over as one Send event and has no failure outcome for it. */
module ResponseHelper {
  import opened Common
  import opened ImMessages
  import opened OpenfireAdapter

  type ImEvent = Event<Op, WebsocketMessage>

  /** sendResponse: the outbound message carries the localparts of sender and
      recipient, the body and the type tag, and leaves roomId null. A sender or
      recipient address without a localpart makes `toString()` on null throw
      inside the listener, before anything is sent. */
  function SendResponse(m: XmppMessage, session: SessionId, t: MessageType): (r: seq<ImEvent>)
    ensures |r| <= 1
    ensures |r| == 1 <==> m.from.localpart.Some? && m.to.localpart.Some?
    ensures forall e | e in r :: e.Send? && e.session == session
    ensures forall e | e in r :: e.message.messageType == Some(t) && e.message.roomId.None?
    ensures forall e | e in r :: e.message.from == m.from.localpart && e.message.to == m.to.localpart
    ensures forall e | e in r :: e.message.content == m.body
  {
    if m.from.localpart.None? || m.to.localpart.None? then []
    else [Send(session, WebsocketMessage(m.from.localpart, m.to.localpart, None, m.body, Some(t)))]
  }

  /** Called by the incoming one-to-one chat listener. */
  function SendPersonalResponse(m: XmppMessage, session: SessionId): (r: seq<ImEvent>)
    ensures forall e | e in r :: e.Send? && e.session == session && e.message.messageType == Some(PersonalMessage)
    ensures |r| == 1 <==> m.from.localpart.Some? && m.to.localpart.Some?
  {
    SendResponse(m, session, PersonalMessage)
  }

  /** Called by the message listener of a joined or created room. */
  function SendGroupResponse(m: XmppMessage, session: SessionId): (r: seq<ImEvent>)
    ensures forall e | e in r :: e.Send? && e.session == session && e.message.messageType == Some(RoomMessage)
    ensures |r| == 1 <==> m.from.localpart.Some? && m.to.localpart.Some?
  {
    SendResponse(m, session, RoomMessage)
  }

  /** A PERSONAL_MESSAGE request from `sender` reaches the recipient's session as
      the same message with `from` set to the sender and roomId left null. */
  lemma PersonalMessageRoundTrip(request: WebsocketMessage, sender: string, resource: Option<string>,
                                 domain: string, recipient: string, session: SessionId)
    requires request.messageType == Some(PersonalMessage) && request.to == Some(recipient)
    ensures SendPersonalResponse(ChatDelivery(sender, resource, domain, request.content, recipient), session)
         == [Send(session, request.(from := Some(sender), roomId := None))]
  {
  }

  /** A ROOM_MESSAGE request reaches each occupant's session as a ROOM_MESSAGE whose
      `from` is the room's name, not the sender's: the room relays the stanza from
      its own address, whose localpart is the room. */
  lemma RoomMessageRoundTrip(request: WebsocketMessage, roomId: string, roomDomain: string,
                             nickname: string, occupant: string, resource: Option<string>,
                             domain: string, session: SessionId)
    requires request.messageType == Some(RoomMessage) && request.roomId == Some(roomId)
    ensures SendGroupResponse(RoomDelivery(roomId, roomDomain, nickname, occupant, resource, domain, request.content), session)
         == [Send(session, WebsocketMessage(Some(roomId), Some(occupant), None, request.content, Some(RoomMessage)))]
  {
  }
}
