/** The record shapes of src/api/message/types.ts. */
module MessageTypes {
  import opened Common

  /** MessageStatus */
  const Unread: int := 0
  const Read: int := 1

  /** AIMessageRole */
  const RoleUser: string := "user"
  const RoleAssistant: string := "assistant"

  datatype MessageId = NumericId(n: int) | TextId(s: string)

  /** MessageInfo as the chat store receives and keeps it. */
  datatype MessageInfo = MessageInfo(
    id: Option<MessageId>,
    sendUserId: int,
    receiveUserId: int,
    content: string,
    isRead: Option<int>,
    isAi: Option<int>,
    createTime: Option<string>,
    unreadCount: Option<int>)

  /** The other party of a session; `id` is that user's id. */
  datatype UserInfo = UserInfo(id: int, nickname: string, avatarUrl: string)

  /** ChatSession. `unreadCount` is None for a count the server left out or
      sent as null. */
  datatype ChatSession = ChatSession(
    userInfo: UserInfo,
    lastMessage: string,
    lastMessageTime: string,
    unreadCount: Option<int>,
    isOnline: bool)

  /** AIMessage */
  datatype AIMessage = AIMessage(content: string, role: string)
}
