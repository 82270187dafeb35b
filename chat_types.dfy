/** The payloads the server pushes over the sockets (types/chatData.ts) and
    the client-side records the application keeps for them
    (types/context.ts). */
module ChatTypes {
  import opened Common

  /** `event.data` of a 'messageNotification'. */
  datatype ChatEventData = ChatEventData(
    sessionId: int,
    senderId: int,
    msgType: string,
    content: string,
    createdAt: string,
    senderName: string,
    senderAvatar: string)

  /** `event.data` of a 'rentalNotification'. `renterId` is not declared in
      the interface but is read by the application's handler; the name and
      avatar fields are optional. */
  datatype RentalEventData = RentalEventData(
    vehicleId: int,
    rentalId: int,
    rentalStatus: string,
    renterId: Option<int>,
    renterName: Option<string>,
    renterAvatar: Option<string>,
    ownerName: Option<string>,
    ownerAvatar: Option<string>)

  /** A server notification of either kind. `id` is `Option` because the
      screens guard against an undefined id. */
  datatype Notification =
    | ChatNotification(id: Option<int>, userId: int, message: string, chat: ChatEventData, createdAt: string)
    | RentalNotification(id: Option<int>, userId: int, message: string, rental: RentalEventData, createdAt: string)

  /** A notification as stored on the client: a fresh list key and a read flag. */
  datatype ClientNotification = ClientNotification(base: Notification, clientId: string, isRead: bool)

  /** The last message of a server-side chat session. */
  datatype SessionData = SessionData(
    senderId: int,
    msgType: string,
    content: string,
    createdAt: string,
    senderName: string,
    senderAvatar: string)

  datatype Receiver = Receiver(receiverId: int, receiverName: string, receiverAvatar: Option<string>)

  /** A session of the 'chatListMessage' snapshot; `data` is null for a
      conversation without messages. */
  datatype ChatSession = ChatSession(sessionId: int, data: Option<SessionData>, receivers: seq<Receiver>)

  /** ClientSideChatSession: one row of the chat list. */
  datatype ChatSummary = ChatSummary(
    clientId: string,
    sessionId: int,
    receiverId: Option<int>,
    nickname: string,
    receiverAvatar: Option<string>,
    lastMessage: string,
    lastMessageTime: Option<string>,
    unreadCount: int)

  /** The authenticated user; only the id is used by the core. */
  datatype User = User(id: int)
}
