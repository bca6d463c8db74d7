/** The client's chat service: the object whose fields hold the typing
    state and the per-chat presence tables, whose handlers update them in
    place, and whose CRUD methods build the requests for the chats API.
    Every handler is proved to move the object's state exactly as the
    corresponding function of module ChatSync says. */
module ChatService {
  import opened Shared
  import opened HttpClient
  import ChatSync

  const ChatsPrefix := "/chats/chat/"
  const CreateChatEndpoint := "/chats/chat"
  const JoinedChatsEndpoint := "/chats/joined"
  const GlobalChatEndpoint := "/chats/globalChat"
  const JoinGlobalChatEndpoint := "/chats/globalChat/join"

  /** `'/chats/chat/' + chatId`. */
  function ChatPath(chatId: ChatId): (r: string)
    ensures |r| == |ChatsPrefix| + |chatId| && r[..|ChatsPrefix|] == ChatsPrefix && r[|ChatsPrefix|..] == chatId
  {
    ChatsPrefix + chatId
  }

  /** `` `/chats/chat/${chatId}/messages` ``. */
  function ChatMessagesPath(chatId: ChatId): (r: string)
    ensures r == ChatPath(chatId) + "/messages"
  {
    ChatsPrefix + chatId + "/messages"
  }

  /** Different chats have different paths. */
  lemma ChatPathInjective(a: ChatId, b: ChatId)
    ensures ChatPath(a) == ChatPath(b) <==> a == b
  {
    assert a == ChatPath(a)[|ChatsPrefix|..];
    assert b == ChatPath(b)[|ChatsPrefix|..];
  }

  lemma ChatMessagesPathInjective(a: ChatId, b: ChatId)
    requires ChatMessagesPath(a) == ChatMessagesPath(b)
    ensures a == b
  {
    var ma, mb := ChatMessagesPath(a), ChatMessagesPath(b);
    assert |a| == |b|;
    assert ChatPath(a) == ma[..|ma| - |"/messages"|];
    assert ChatPath(b) == mb[..|mb| - |"/messages"|];
    ChatPathInjective(a, b);
  }

  /** A chat id without a slash never names another chat's messages: the
      two kinds of path cannot be confused. */
  lemma MessagesPathIsNotChatPath(a: ChatId, b: ChatId)
    requires '/' !in b
    ensures ChatMessagesPath(a) != ChatPath(b)
  {
    var c := a + "/messages";
    assert ChatMessagesPath(a) == ChatPath(c);
    assert c[|a|] == '/';
    ChatPathInjective(c, b);
  }

  class ChatService {
    const httpClient: BaseHttpClient

    // Mirrored from the store by its subscription.
    var user: Option<LoggedInUser>
    var activeChatId: Option<ChatId>

    // Own typing state, the debounced stop timer and the macro-queue callbacks.
    var isTyping: bool
    var stopTypingPending: bool
    var deferredStops: nat

    var usersTypingMap: map<ChatId, seq<string>>
    var usersOnlineMap: map<ChatId, seq<string>>

    // What has left the service, oldest first.
    var outbound: seq<ChatSync.ClientEvent>
    var typingViews: seq<seq<string>>
    var onlineViews: seq<seq<string>>
    var dispatched: seq<ChatsAction>
    var messageUpdates: seq<ServerChatMessagePayload>
    var userEvents: seq<ServerUserOnlineStatusPayload>

    /** The object's state as a value. */
    function Snapshot(): ChatSync.State
      reads this
    {
      ChatSync.State(user, activeChatId, isTyping, usersTypingMap, usersOnlineMap, stopTypingPending,
                     deferredStops, outbound, typingViews, onlineViews, dispatched, messageUpdates, userEvents)
    }

    ghost predicate Valid()
      reads this
    {
      ChatSync.Consistent(Snapshot())
    }

    constructor (httpClient: BaseHttpClient, user: Option<LoggedInUser>, activeChatId: Option<ChatId>)
      ensures this.httpClient == httpClient
      ensures Snapshot() == ChatSync.Init(user, activeChatId) && Valid()
    {
      this.httpClient := httpClient;
      this.user := user;
      this.activeChatId := activeChatId;
      isTyping := false;
      stopTypingPending := false;
      deferredStops := 0;
      usersTypingMap := map[];
      usersOnlineMap := map[];
      outbound := [];
      typingViews := [];
      onlineViews := [];
      dispatched := [];
      messageUpdates := [];
      userEvents := [];
    }

    method OnStoreUpdate(user: Option<LoggedInUser>, activeChatId: Option<ChatId>)
      requires Valid()
      modifies this
      ensures Valid()
      ensures Snapshot() == ChatSync.OnStoreUpdate(old(Snapshot()), user, activeChatId)
    {
      this.user := user;
      this.activeChatId := activeChatId;
    }

    method EmitTyping(flag: bool)
      modifies this
      ensures Snapshot() == ChatSync.EmitTyping(old(Snapshot()), flag)
    {
      outbound := outbound + [ChatSync.Typing(ClientTypingPayload(activeChatId, flag))];
      isTyping := flag;
    }

    method TypingHandler()
      requires Valid()
      modifies this
      ensures Valid()
      ensures Snapshot() == ChatSync.TypingHandler(old(Snapshot()))
    {
      ChatSync.StepKeepsConsistent(Snapshot(), ChatSync.TypingCall);
      if user.None? {
        return;
      }
      if !isTyping {
        EmitTyping(true);
      }
      stopTypingPending := true;
    }

    /** The debounced stop timer fires (nothing happens if it is not armed). */
    method FireStopTyping()
      requires Valid()
      modifies this
      ensures Valid()
      ensures Snapshot() == ChatSync.FireStopTyping(old(Snapshot()))
    {
      ChatSync.StepKeepsConsistent(Snapshot(), ChatSync.StopTimerFires);
      if stopTypingPending {
        stopTypingPending := false;
        EmitTyping(false);
      }
    }

    method OnServerTyping(p: ServerTypingPayload)
      requires Valid()
      modifies this
      ensures Valid()
      ensures Snapshot() == ChatSync.OnServerTyping(old(Snapshot()), p)
    {
      var before := ChatSync.Stored(usersTypingMap, p.chatId);
      if p.isTyping {
        usersTypingMap := usersTypingMap[p.chatId := before + [p.username]];
      } else {
        usersTypingMap := usersTypingMap[p.chatId := ChatSync.WithoutUser(before, p.username)];
      }
      if activeChatId == Some(p.chatId) {
        typingViews := typingViews + [ChatSync.Stored(usersTypingMap, p.chatId)];
      }
    }

    method OnUsersOnline(p: ServerUsersOnlinePayload)
      requires Valid()
      modifies this
      ensures Valid()
      ensures Snapshot() == ChatSync.OnUsersOnline(old(Snapshot()), p)
    {
      usersOnlineMap := usersOnlineMap[p.chatId := p.usersOnline];
      if activeChatId == Some(p.chatId) {
        onlineViews := onlineViews + [p.usersOnline];
      }
    }

    method OnSetActiveChatSuccess(chatId: ChatId)
      requires Valid()
      modifies this
      ensures Valid()
      ensures Snapshot() == ChatSync.OnSetActiveChatSuccess(old(Snapshot()), chatId)
    {
      onlineViews := onlineViews + [ChatSync.Stored(usersOnlineMap, chatId)];
      typingViews := typingViews + [ChatSync.Stored(usersTypingMap, chatId)];
    }

    method SendMessage(payload: ClientChatMessagePayload)
      requires Valid()
      modifies this
      ensures Valid()
      ensures Snapshot() == ChatSync.SendMessage(old(Snapshot()), payload)
    {
      ChatSync.StepKeepsConsistent(Snapshot(), ChatSync.SendCall(payload));
      if user.None? {
        return;
      }
      deferredStops := deferredStops + 1;
      outbound := outbound + [ChatSync.ChatMessage(payload)];
    }

    /** One macro-queue callback queued by `SendMessage` runs. */
    method FireDeferredStop()
      requires Valid()
      modifies this
      ensures Valid()
      ensures Snapshot() == ChatSync.FireDeferredStop(old(Snapshot()))
    {
      ChatSync.StepKeepsConsistent(Snapshot(), ChatSync.DeferredStopFires);
      if deferredStops > 0 {
        deferredStops := deferredStops - 1;
        EmitTyping(false);
      }
    }

    /** One server `chat-message` event through `getChatMessageUpdates`. */
    method OnServerChatMessage(p: ServerChatMessagePayload)
      requires Valid()
      modifies this
      ensures Valid()
      ensures Snapshot() == ChatSync.OnServerChatMessage(old(Snapshot()), p)
    {
      dispatched := dispatched + [NewMessage(p)];
      if activeChatId == Some(p.chatId) {
        messageUpdates := messageUpdates + [p];
      }
    }

    /** One server `user-online-status` event through `getUserEvents`. */
    method OnUserOnlineStatus(p: ServerUserOnlineStatusPayload)
      requires Valid()
      modifies this
      ensures Valid()
      ensures Snapshot() == ChatSync.OnUserOnlineStatus(old(Snapshot()), p)
    {
      if ChatSync.ConcernsActiveChat(p.chatIds, activeChatId) {
        userEvents := userEvents + [p];
      }
    }

    method OnJoinGlobalChatResponse(res: HttpResult<ChatSync.JoinResponse>)
      requires Valid()
      modifies this
      ensures Valid()
      ensures Snapshot() == ChatSync.OnJoinGlobalChatResponse(old(Snapshot()), res)
    {
      match res
      case Ok(r) =>
        dispatched := dispatched + [JoinChatSuccess(r.chatRoom)];
      case Err(e) =>
        dispatched := dispatched + [Failed(e)];
    }

    // CRUD requests.

    method GetChat(chatId: ChatId) returns (req: Request)
      ensures req.verb == GET && req.url == httpClient.baseUrl + ChatPath(chatId) && req.body == None
      ensures req.options == Sanitized(httpClient.bearerToken, None)
    {
      req := httpClient.Get(ChatPath(chatId), null);
    }

    /** Asks for the download events rather than only the body. */
    method GetChatMessages(chatId: ChatId) returns (req: Request)
      ensures req.verb == GET && req.url == httpClient.baseUrl + ChatMessagesPath(chatId) && req.body == None
      ensures req.options == Sanitized(httpClient.bearerToken, Some(ProgressOptions))
    {
      var options := new HttpOptions(ProgressOptions);
      req := httpClient.Get(ChatMessagesPath(chatId), options);
    }

    method CreateChat(title: string) returns (req: Request)
      ensures req.verb == POST && req.url == httpClient.baseUrl + CreateChatEndpoint
      ensures req.body == Some(Object(map["title" := title]))
      ensures req.options == Sanitized(httpClient.bearerToken, None)
    {
      req := httpClient.Post(CreateChatEndpoint, Object(map["title" := title]), null);
    }

    method GetJoinedChats() returns (req: Request)
      ensures req.verb == GET && req.url == httpClient.baseUrl + JoinedChatsEndpoint && req.body == None
      ensures req.options == Sanitized(httpClient.bearerToken, None)
    {
      req := httpClient.Get(JoinedChatsEndpoint, null);
    }

    method GetGlobalChatPreview() returns (req: Request)
      ensures req.verb == GET && req.url == httpClient.baseUrl + GlobalChatEndpoint && req.body == None
      ensures req.options == Sanitized(httpClient.bearerToken, None)
    {
      req := httpClient.Get(GlobalChatEndpoint, null);
    }

    /** Posted without a body, so `{}` is sent. */
    method JoinGlobalChat() returns (req: Request)
      ensures req.verb == POST && req.url == httpClient.baseUrl + JoinGlobalChatEndpoint
      ensures req.body == Some(EmptyObject)
      ensures req.options == Sanitized(httpClient.bearerToken, None)
    {
      req := httpClient.Post(JoinGlobalChatEndpoint, Undefined, null);
    }
  }

  /** The tail of `reportProgress` on what `getChatMessages`'s request
      delivers: only an HTTP `Response` event passes the filter, and it
      yields its body. The error value that `handleError` put in the stream
      has no event type, so it is dropped and nothing comes out. */
  function ResponseBodies<T>(res: HttpResult<T>): (r: seq<T>)
    ensures res.Ok? ==> r == [res.value]
    ensures res.Err? <==> r == []
  {
    match res
    case Ok(body) => [body]
    case Err(_) => []
  }

  /** `{ reportProgress: true, observe: 'events' }`. */
  const ProgressOptions := OptionsValue(None, None, map["reportProgress" := "true", "observe" := "events"])
}
