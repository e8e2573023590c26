/** XmppToWebSocketTransmitter of the older package: turns a chat stanza the
    backend delivers into the WebsocketMessage sent to the one session whose
    listener received it. The send goes through WebSocketTextMessageHelper, which
    is not part of this model; the hand-over is recorded as one Send event. */
module XmppToWebSocketTransmitter {
  import opened Common
  import opened BridgeMessages
  import opened XmppClientAdapter

  type BridgeEvent = Event<Op, WebsocketMessage>

  /** sendResponse: the outbound message carries the localparts of sender and
      recipient, the body and the type tag, and leaves groupId null. A sender or
      recipient address without a localpart makes `toString()` on null throw
      inside the listener, before anything is sent. */
  function SendResponse(m: XmppMessage, session: SessionId, t: MessageType): (r: seq<BridgeEvent>)
    ensures |r| <= 1
    ensures |r| == 1 <==> m.from.localpart.Some? && m.to.localpart.Some?
    ensures forall e | e in r :: e.Send? && e.session == session
    ensures forall e | e in r :: e.message.messageType == Some(t) && e.message.groupId.None?
    ensures forall e | e in r :: e.message.from == m.from.localpart && e.message.to == m.to.localpart
    ensures forall e | e in r :: e.message.content == m.body
  {
    if m.from.localpart.None? || m.to.localpart.None? then []
    else [Send(session, WebsocketMessage(m.from.localpart, m.to.localpart, None, m.body, Some(t)))]
  }

  /** Called by the incoming one-to-one chat listener. */
  function SendPersonalResponse(m: XmppMessage, session: SessionId): (r: seq<BridgeEvent>)
    ensures forall e | e in r :: e.Send? && e.session == session && e.message.messageType == Some(PersonalMessage)
    ensures |r| == 1 <==> m.from.localpart.Some? && m.to.localpart.Some?
  {
    SendResponse(m, session, PersonalMessage)
  }

  /** Called by the message listener of a joined or created group. */
  function SendGroupResponse(m: XmppMessage, session: SessionId): (r: seq<BridgeEvent>)
    ensures forall e | e in r :: e.Send? && e.session == session && e.message.messageType == Some(GroupMessage)
    ensures |r| == 1 <==> m.from.localpart.Some? && m.to.localpart.Some?
  {
    SendResponse(m, session, GroupMessage)
  }

  /** A PERSONAL_MESSAGE request from `sender` reaches the recipient's session as
      the same message with `from` set to the sender and groupId left null. */
  lemma PersonalMessageRoundTrip(request: WebsocketMessage, sender: string, resource: Option<string>,
                                 domain: string, recipient: string, session: SessionId)
    requires request.messageType == Some(PersonalMessage) && request.to == Some(recipient)
    ensures SendPersonalResponse(ChatDelivery(sender, resource, domain, request.content, recipient), session)
         == [Send(session, request.(from := Some(sender), groupId := None))]
  {
  }

  /** A GROUP_MESSAGE request reaches each occupant's session as a GROUP_MESSAGE
      whose `from` is the group's name, not the sender's, and whose groupId is
      null: the room relays the stanza from its own address. */
  lemma GroupMessageRoundTrip(request: WebsocketMessage, groupId: string, groupDomain: string,
                              nickname: string, occupant: string, resource: Option<string>,
                              domain: string, session: SessionId)
    requires request.messageType == Some(GroupMessage) && request.groupId == Some(groupId)
    ensures SendGroupResponse(RoomDelivery(groupId, groupDomain, nickname, occupant, resource, domain, request.content), session)
         == [Send(session, WebsocketMessage(Some(groupId), Some(occupant), None, request.content, Some(GroupMessage)))]
  {
  }
}
