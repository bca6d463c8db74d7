/** Types shared by the client services, the chats effects and the store:
    the socket event payloads, the store's actions and the shape of an HTTP
    error value as the client passes it around. */
module Shared {

  datatype Option<+T> = None | Some(value: T)

  type ChatId = string

  /** The logged-in user as the store holds it; the chat service only asks
      whether one is present. */
  datatype LoggedInUser = LoggedInUser(username: string, accessToken: string)

  datatype UserPreview = UserPreview(id: string, username: string)

  // Client → server payloads. The typing payload's chat id is whatever the
  // store's activeChatId is when the event leaves, which may be unset.
  datatype ClientTypingPayload = ClientTypingPayload(chatId: Option<ChatId>, isTyping: bool)
  datatype ClientChatMessagePayload = ClientChatMessagePayload(chatId: ChatId, messageText: string)

  // Server → client payloads.
  datatype ServerTypingPayload = ServerTypingPayload(username: string, isTyping: bool, chatId: ChatId)
  datatype ServerChatMessage =
    ServerChatMessage(id: string, timestamp: string, text: string, chatId: ChatId, userId: string, user: UserPreview)
  datatype ServerChatMessagePayload = ServerChatMessagePayload(chatId: ChatId, message: ServerChatMessage)
  datatype ServerUserOnlineStatusPayload =
    ServerUserOnlineStatusPayload(user: UserPreview, online: bool, chatIds: seq<ChatId>)
  datatype ServerUsersOnlinePayload = ServerUsersOnlinePayload(chatId: ChatId, usersOnline: seq<string>)

  /** The error object carried by an HTTP error value: the server's own error
      body, or the fixed client-side one. */
  datatype ErrorBody = ErrorBody(statusCode: int, message: string, error: string)

  /** `{ error: ... }`, the value the HTTP client emits instead of a response. */
  datatype ServerErrorResponse = ServerErrorResponse(error: ErrorBody)

  /** What an HTTP observable emits: the response body, or an error value
      (the client never throws). */
  datatype HttpResult<+T> = Ok(value: T) | Err(response: ServerErrorResponse)

  datatype ChatPreview = ChatPreview(id: ChatId, title: string)

  datatype StoredChatMessage = StoredChatMessage(id: string, text: string, chatId: ChatId, userId: string)

  /** The chats store's actions that the modelled code creates or reacts to.
      `Failed` stands for the error action the shared error handler makes
      out of an error value. A success without `alreadyStored` in the
      source has `alreadyStored == false` here. */
  datatype ChatsAction =
    | SetActiveChat(chatId: ChatId)
    | SetActiveChatSuccess(chatId: ChatId)
    | LoadActiveChatMessages(chatId: ChatId)
    | LoadActiveChatMessagesSuccess(alreadyStored: bool, chatId: ChatId, messages: seq<StoredChatMessage>)
    | CreateChat(title: string)
    | CreateChatSuccess(createdChat: ChatPreview)
    | LoadChatPreviews
    | LoadChatPreviewsSuccess(chatPreviews: seq<ChatPreview>)
    | JoinChatSuccess(chat: ChatPreview)
    | NewMessage(payload: ServerChatMessagePayload)
    | Failed(response: ServerErrorResponse)

  datatype UserAction = Logout
}
