/**
 * The shapes that travel between browser, relay and HTTP routes: the chat message as the
 * client holds it, the socket events in both directions, and the device description that
 * signup sends.
 */
module Wire {
  import opened Common

  type UserId = string
  type ConversationId = string
  type MessageId = string
  type SocketId = string

  /** The status ladder of a message (the `MessageStatus` union). */
  datatype Status = Sending | Sent | Delivered | Seen

  /**
   * The status as the string stored in the database and sent over HTTP. Every status but
   * the client-only `sending` is one of the schema's enum values, and each name picks out
   * one status, so names can be compared in place of statuses.
   */
  function StatusName(st: Status): (r: string)
    ensures st != Sending <==> r in {"sent", "delivered", "seen"}
    ensures r == "sending" <==> st == Sending
    ensures r == "sent" <==> st == Sent
    ensures r == "delivered" <==> st == Delivered
    ensures r == "seen" <==> st == Seen
  {
    match st
    case Sending => "sending"
    case Sent => "sent"
    case Delivered => "delivered"
    case Seen => "seen"
  }

  datatype ImageData = ImageData(data: string, mimeType: string, size: int)

  datatype SenderInfo = SenderInfo(id: UserId, name: string, avatar: Option<string>, isAgent: bool)

  /** A message as the chat window lists it and as `message:send` / `message:new` carry it. */
  datatype Message = Message(
    id: MessageId,
    content: string,
    status: Status,
    createdAt: Time,
    senderId: UserId,
    image: Option<ImageData>,
    sender: SenderInfo)

  /** Events a client emits to the relay. `message:send` carries no recipient list on the wire. */
  datatype ClientEvent =
    | UserOnline(userId: UserId)
    | ConversationJoin(conversationId: ConversationId)
    | MessageSend(conversationId: ConversationId, message: Message, senderId: UserId, tempId: string)
    | MessageDelivered(conversationId: ConversationId, messageIds: seq<MessageId>, userId: UserId)
    | MessageSeen(conversationId: ConversationId, messageIds: seq<MessageId>, userId: UserId)
    | TypingStart(conversationId: ConversationId, userId: UserId, userName: string)
    | TypingStop(conversationId: ConversationId, userId: UserId)

  /** Events the relay emits to clients. `userName` is absent from a stop notice. */
  datatype ServerEvent =
    | UserStatus(userId: UserId, online: bool)
    | MessageNew(conversationId: ConversationId, message: Message, senderId: UserId)
    | MessageSent(tempId: string, messageId: MessageId, status: Status)
    | StatusDelivered(messageIds: seq<MessageId>, userId: UserId, timestamp: Time)
    | StatusSeen(messageIds: seq<MessageId>, userId: UserId, timestamp: Time)
    | TypingUser(conversationId: ConversationId, userId: UserId, userName: Option<string>, isTyping: bool)

  /** Browser, operating system and device class, as the signup page derives them. */
  datatype DeviceInfo = DeviceInfo(browser: string, os: string, device: string)
}
