/**
 * The shared entities of the chat client (src/types/index.ts).
 * Fields that no reducer or validator inspects (timestamps, avatars) are kept
 * as plain values: a timestamp is a number of milliseconds, a URL a string.
 */
module Types {
  import opened Wrappers

  /** Milliseconds since the epoch, as `Date` holds them. */
  type Timestamp = nat

  type Url = string

  datatype Role = Admin | UserRole

  datatype User = User(
    id: string,
    name: string,
    username: string,
    email: string,
    roles: seq<Role>,
    avatar: Option<Url>,
    createdAt: Timestamp)

  datatype Message = Message(
    id: string,
    senderId: string,
    senderName: string,
    content: string,
    timestamp: Timestamp,
    chatId: string,
    isRead: bool)

  /**
   * A conversation. The source tells the two shapes apart by the presence of
   * `participantId`; here the constructor is the tag. Both carry `id`.
   */
  datatype Chat =
    | Private(
        id: string,
        participantId: string,
        participantName: string,
        participantAvatar: Option<Url>,
        lastMessage: Option<Message>,
        unreadCount: int,
        createdAt: Timestamp)
    | Group(
        id: string,
        name: string,
        description: Option<string>,
        avatar: Option<Url>,
        members: seq<User>,
        admin: string,
        lastMessage: Option<Message>,
        unreadCount: int,
        createdAt: Timestamp)
}
