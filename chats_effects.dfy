/** The chats effects: for each store action they listen to, the HTTP
    calls they issue and the actions they emit. The messages cache mirrored
    from the store and the responses of the backend are parameters. */
module ChatsEffects {
  import opened Shared
  import ChatService

  /** The store's messages per chat; a present entry, even an empty list,
      means the chat's messages are loaded. */
  type MessagesCache = map<ChatId, seq<StoredChatMessage>>

  /** One reaction of the effects: the endpoints fetched, in order, and the
      actions emitted, in order. */
  datatype Reaction = Reaction(fetches: seq<string>, emitted: seq<ChatsAction>)

  const NoReaction := Reaction([], [])

  /** The shared error handler: an error value becomes the error action,
      anything else goes through `onSuccess`. */
  function HandleError<T>(res: HttpResult<T>, onSuccess: T -> ChatsAction): (r: ChatsAction)
    ensures res.Err? ==> r == Failed(res.response)
    ensures res.Ok? ==> r == onSuccess(res.value)
  {
    match res
    case Ok(v) => onSuccess(v)
    case Err(e) => Failed(e)
  }

  /** `forwardSetActiveChat`. */
  function ForwardSetActiveChat(chatId: ChatId): (r: ChatsAction)
    ensures r.LoadActiveChatMessages? && r.chatId == chatId
  {
    LoadActiveChatMessages(chatId)
  }

  /** `loadActiveChat`: a cached chat (even an empty list) answers at once,
      marked as already stored; otherwise the messages are fetched once.
      `fetched` is what that fetch yields; it reaches the error handler only
      through `getChatMessages`'s progress filter, which lets no error value
      through, so a failed fetch emits nothing at all. */
  function LoadActiveChat(chatId: ChatId, cache: MessagesCache, fetched: HttpResult<seq<StoredChatMessage>>): (r: Reaction)
    ensures chatId in cache ==> r == Reaction([], [LoadActiveChatMessagesSuccess(true, chatId, cache[chatId])])
    ensures chatId !in cache ==> r.fetches == [ChatService.ChatMessagesPath(chatId)]
    ensures chatId !in cache && fetched.Ok? ==> r.emitted == [LoadActiveChatMessagesSuccess(false, chatId, fetched.value)]
    ensures chatId !in cache && fetched.Err? ==> r.emitted == []
    ensures forall k :: 0 <= k < |r.emitted| ==> r.emitted[k].LoadActiveChatMessagesSuccess?
  {
    if chatId in cache then
      Reaction([], [LoadActiveChatMessagesSuccess(true, chatId, cache[chatId])])
    else
      var bodies := ChatService.ResponseBodies(fetched);
      Reaction([ChatService.ChatMessagesPath(chatId)],
               seq(|bodies|, k requires 0 <= k < |bodies| =>
                 HandleError(Ok(bodies[k]), messages => LoadActiveChatMessagesSuccess(false, chatId, messages))))
  }

  /** `loadActiveChat` as its call to the error handler shows it was meant:
      a failed fetch reaches the handler and becomes the error action, so
      every load is answered by exactly one action. It agrees with
      `LoadActiveChat` whenever the chat is cached or the fetch succeeds. */
  function LoadActiveChatIntended(chatId: ChatId, cache: MessagesCache, fetched: HttpResult<seq<StoredChatMessage>>): (r: Reaction)
    ensures chatId in cache || fetched.Ok? ==> r == LoadActiveChat(chatId, cache, fetched)
    ensures chatId !in cache ==> r.fetches == [ChatService.ChatMessagesPath(chatId)] && |r.emitted| == 1
    ensures chatId !in cache ==> (r.emitted[0].LoadActiveChatMessagesSuccess? <==> fetched.Ok?)
    ensures chatId !in cache && fetched.Err? ==> r.emitted[0] == Failed(fetched.response)
  {
    if chatId in cache then
      Reaction([], [LoadActiveChatMessagesSuccess(true, chatId, cache[chatId])])
    else
      Reaction([ChatService.ChatMessagesPath(chatId)],
               [HandleError(fetched, messages => LoadActiveChatMessagesSuccess(false, chatId, messages))])
  }

  /** The discrepancy on one input: an uncached chat whose fetch fails
      gets no action from the effect, where the intended one reports it. */
  lemma FailedLoadIsSilent(chatId: ChatId, cache: MessagesCache, e: ServerErrorResponse)
    requires chatId !in cache
    ensures LoadActiveChat(chatId, cache, Err(e)).emitted == []
    ensures LoadActiveChatIntended(chatId, cache, Err(e)).emitted == [Failed(e)]
    ensures LoadActiveChat(chatId, cache, Err(e)).fetches == LoadActiveChatIntended(chatId, cache, Err(e)).fetches
  {
  }

  /** `createChat`: one POST; an error value is turned into the error path
      and never reaches `createChatSuccess`. */
  function CreateChat(title: string, created: HttpResult<ChatPreview>): (r: Reaction)
    ensures r.fetches == [ChatService.CreateChatEndpoint] && |r.emitted| == 1
    ensures r.emitted[0].CreateChatSuccess? <==> created.Ok?
    ensures created.Ok? ==> r.emitted[0] == CreateChatSuccess(created.value)
    ensures created.Err? ==> r.emitted[0] == Failed(created.response)
  {
    Reaction([ChatService.CreateChatEndpoint], [HandleError(created, c => CreateChatSuccess(c))])
  }

  /** `setCreatedChatActive`. */
  function SetCreatedChatActive(createdChat: ChatPreview): (r: ChatsAction)
    ensures r.SetActiveChat? && r.chatId == createdChat.id
  {
    SetActiveChat(createdChat.id)
  }

  /** `loadJoinedChatPreviews`: one GET; success carries exactly the fetched list. */
  function LoadJoinedChatPreviews(joined: HttpResult<seq<ChatPreview>>): (r: Reaction)
    ensures r.fetches == [ChatService.JoinedChatsEndpoint] && |r.emitted| == 1
    ensures r.emitted[0].LoadChatPreviewsSuccess? <==> joined.Ok?
    ensures joined.Ok? ==> r.emitted[0] == LoadChatPreviewsSuccess(joined.value)
    ensures joined.Err? ==> r.emitted[0] == Failed(joined.response)
  {
    Reaction([ChatService.JoinedChatsEndpoint], [HandleError(joined, previews => LoadChatPreviewsSuccess(previews))])
  }

  /** What the backend answers: messages per chat, the chat created per
      title, and the joined chats. */
  datatype Backend = Backend(
    messages: ChatId -> HttpResult<seq<StoredChatMessage>>,
    created: string -> HttpResult<ChatPreview>,
    joined: HttpResult<seq<ChatPreview>>)

  /** All effects together: each reacts to its own action type only. */
  function Effects(a: ChatsAction, cache: MessagesCache, backend: Backend): (r: Reaction)
    ensures !(a.SetActiveChat? || a.LoadActiveChatMessages? || a.CreateChat? || a.CreateChatSuccess? || a.LoadChatPreviews?)
      ==> r == NoReaction
    ensures |r.emitted| <= 1 && |r.fetches| <= 1
  {
    match a
    case SetActiveChat(chatId) => Reaction([], [ForwardSetActiveChat(chatId)])
    case LoadActiveChatMessages(chatId) => LoadActiveChat(chatId, cache, backend.messages(chatId))
    case CreateChat(title) => CreateChat(title, backend.created(title))
    case CreateChatSuccess(createdChat) => Reaction([], [SetCreatedChatActive(createdChat)])
    case LoadChatPreviews => LoadJoinedChatPreviews(backend.joined)
    case _ => NoReaction
  }

  /** The actions that follow from `a`: each emitted action is dispatched
      back to the effects, against the same snapshot of the store, up to
      `depth` times. Each effect emits at most one action, so the actions
      form one chain; `a`'s own reaction comes first. */
  function Cascade(a: ChatsAction, cache: MessagesCache, backend: Backend, depth: nat): (r: Reaction)
    ensures Effects(a, cache, backend).fetches <= r.fetches && Effects(a, cache, backend).emitted <= r.emitted
    ensures |r.fetches| <= depth + 1 && |r.emitted| <= depth + 1
    decreases depth
  {
    var step := Effects(a, cache, backend);
    if depth == 0 || step.emitted == [] then step
    else
      var rest := Cascade(step.emitted[0], cache, backend, depth - 1);
      Reaction(step.fetches + rest.fetches, step.emitted + rest.emitted)
  }

  /** Selecting a chat loads its messages: from the cache without a fetch
      when present, otherwise with exactly one fetch of that chat's messages. */
  lemma SelectingAChatLoadsIt(chatId: ChatId, cache: MessagesCache, backend: Backend)
    ensures var r := Cascade(SetActiveChat(chatId), cache, backend, 1);
      && r.emitted[0] == LoadActiveChatMessages(chatId)
      && (chatId in cache ==> r == Reaction([], [LoadActiveChatMessages(chatId),
                                                LoadActiveChatMessagesSuccess(true, chatId, cache[chatId])]))
      && (chatId !in cache ==> r.fetches == [ChatService.ChatMessagesPath(chatId)])
      && (chatId !in cache && backend.messages(chatId).Ok? ==>
            r.emitted == [LoadActiveChatMessages(chatId),
                          LoadActiveChatMessagesSuccess(false, chatId, backend.messages(chatId).value)])
      && (chatId !in cache && backend.messages(chatId).Err? ==> r.emitted == [LoadActiveChatMessages(chatId)])
  {
    var first := Effects(SetActiveChat(chatId), cache, backend);
    assert first.emitted == [LoadActiveChatMessages(chatId)];
    var second := Cascade(LoadActiveChatMessages(chatId), cache, backend, 0);
    assert second == LoadActiveChat(chatId, cache, backend.messages(chatId));
  }

  /** A chat created successfully becomes the active chat and its messages
      are loaded: create → createChatSuccess → setActiveChat → load, then
      the load's success unless its fetch fails, which ends the chain. */
  lemma CreatedChatBecomesActive(title: string, cache: MessagesCache, backend: Backend)
    requires backend.created(title).Ok?
    ensures var c := backend.created(title).value;
      var r := Cascade(Shared.CreateChat(title), cache, backend, 3);
      && |r.emitted| == 3 + (if c.id in cache || backend.messages(c.id).Ok? then 1 else 0)
      && r.emitted[..3] == [CreateChatSuccess(c), SetActiveChat(c.id), LoadActiveChatMessages(c.id)]
      && (|r.emitted| == 4 ==> r.emitted[3].LoadActiveChatMessagesSuccess? && r.emitted[3].chatId == c.id)
      && r.fetches == [ChatService.CreateChatEndpoint] + (if c.id in cache then [] else [ChatService.ChatMessagesPath(c.id)])
  {
    var c := backend.created(title).value;
    SelectingAChatLoadsIt(c.id, cache, backend);
    var tail := Cascade(SetActiveChat(c.id), cache, backend, 1);
    assert Cascade(CreateChatSuccess(c), cache, backend, 2) == Reaction(tail.fetches, [SetActiveChat(c.id)] + tail.emitted);
    assert Effects(Shared.CreateChat(title), cache, backend) == Reaction([ChatService.CreateChatEndpoint], [CreateChatSuccess(c)]);
  }

  /** A failed create stops the chain at the error action. */
  lemma FailedCreateStops(title: string, cache: MessagesCache, backend: Backend, depth: nat)
    requires backend.created(title).Err?
    ensures Cascade(Shared.CreateChat(title), cache, backend, depth)
      == Reaction([ChatService.CreateChatEndpoint], [Failed(backend.created(title).response)])
  {
    var e := Failed(backend.created(title).response);
    if depth > 0 {
      assert Effects(e, cache, backend) == NoReaction;
      assert Cascade(e, cache, backend, depth - 1) == NoReaction;
    }
  }

  /** The fetches of actions dispatched before the store changes: each
      action meets the same mirrored snapshot of the messages (the store
      subscription that sets `chatMessages`), and `mergeMap` starts each
      one's request at once, so the requests go out in the order the
      actions were dispatched. */
  function Dispatch(actions: seq<ChatsAction>, cache: MessagesCache, backend: Backend): (r: seq<string>)
    ensures |r| <= |actions|
    ensures |actions| == 1 ==> r == Effects(actions[0], cache, backend).fetches
    decreases |actions|
  {
    if actions == [] then []
    else Effects(actions[0], cache, backend).fetches + Dispatch(actions[1..], cache, backend)
  }

  /** Dispatching one batch after another issues the first batch's requests,
      then the second's. */
  lemma {:induction false} DispatchAppend(a: seq<ChatsAction>, b: seq<ChatsAction>, cache: MessagesCache, backend: Backend)
    ensures Dispatch(a + b, cache, backend) == Dispatch(a, cache, backend) + Dispatch(b, cache, backend)
    decreases |a|
  {
    if a == [] {
      assert a + b == b;
    } else {
      assert (a + b)[0] == a[0];
      assert (a + b)[1..] == a[1..] + b;
      DispatchAppend(a[1..], b, cache, backend);
    }
  }

  /** There is no coalescing of loads: n loads of the same uncached chat,
      dispatched before its messages are stored, fetch them n times. */
  lemma {:induction false} LoadsAreNotCoalesced(chatId: ChatId, cache: MessagesCache, backend: Backend, n: nat)
    requires chatId !in cache
    ensures Dispatch(seq(n, _ => LoadActiveChatMessages(chatId)), cache, backend)
      == seq(n, _ => ChatService.ChatMessagesPath(chatId))
    decreases n
  {
    var loads := seq(n, _ => LoadActiveChatMessages(chatId));
    if n > 0 {
      assert loads[0] == LoadActiveChatMessages(chatId);
      assert loads[1..] == seq(n - 1, _ => LoadActiveChatMessages(chatId));
      LoadsAreNotCoalesced(chatId, cache, backend, n - 1);
      assert [ChatService.ChatMessagesPath(chatId)] + seq(n - 1, _ => ChatService.ChatMessagesPath(chatId))
        == seq(n, _ => ChatService.ChatMessagesPath(chatId));
    }
  }
}
