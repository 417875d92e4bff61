/**
 * The chat entities exchanged with the backend: threads, messages, the send
 * request and the typing and online-status events of the push channel.
 */
module ChatModels {
  import opened Common

  /** `MessageType`: Text = 1, Voice = 2, Video = 3, FormCheck = 4. */
  datatype MessageType = Text | Voice | Video | FormCheck

  function Code(t: MessageType): (n: int)
    ensures 1 <= n <= 4
  {
    match t
    case Text => 1
    case Voice => 2
    case Video => 3
    case FormCheck => 4
  }

  datatype ChatThread = ChatThread(
    id: int,
    clientId: string,
    trainerId: string,
    otherUserId: Option<string>,
    otherUserName: Option<string>,
    unreadCount: int)

  datatype ChatMessage = ChatMessage(
    id: int,
    threadId: int,
    senderId: string,
    content: string,
    mediaUrl: Option<string>,
    kind: MessageType,
    isRead: bool)

  datatype SendMessageRequest = SendMessageRequest(content: string, mediaUrl: Option<string>, kind: MessageType)

  datatype TypingEvent = TypingEvent(userId: string, userName: string, threadId: int)

  datatype OnlineStatusEvent = OnlineStatusEvent(userId: string, isOnline: bool)
}
