/** The chat service's state machine, as values: the client's own typing
    state with its debounced stop timer, the per-chat tables of who is
    typing and who is online, what is pushed to the views of the active
    chat, and what goes out on the socket or into the store. Each input the
    service reacts to is a function from the old state to the new one; the
    class in module ChatService is proved to follow these functions. */
module ChatSync {
  import opened Shared

  /** An event the client emits on the socket. */
  datatype ClientEvent = Typing(typing: ClientTypingPayload) | ChatMessage(message: ClientChatMessagePayload)

  /** The response to `POST /chats/globalChat/join`. */
  datatype JoinResponse = JoinResponse(successMessage: string, chatRoom: ChatPreview)

  /** The service's fields, its two pending timers and the logs of what it
      has sent out so far (oldest first):
      - `stopTypingPending`: the single debounced "typing=false" timer is armed;
      - `deferredStops`: "typing=false" callbacks queued by sendMessage;
      - `outbound`: socket events emitted;
      - `typingViews` / `onlineViews`: lists pushed to the active chat's
        typing and online subjects (readers of the online one see them
        through `OnlineView`);
      - `dispatched`: actions dispatched to the store;
      - `messageUpdates` / `userEvents`: server events passed on to the
        active chat's readers. */
  datatype State = State(
    user: Option<LoggedInUser>,
    activeChatId: Option<ChatId>,
    isTyping: bool,
    usersTypingMap: map<ChatId, seq<string>>,
    usersOnlineMap: map<ChatId, seq<string>>,
    stopTypingPending: bool,
    deferredStops: nat,
    outbound: seq<ClientEvent>,
    typingViews: seq<seq<string>>,
    onlineViews: seq<seq<string>>,
    dispatched: seq<ChatsAction>,
    messageUpdates: seq<ServerChatMessagePayload>,
    userEvents: seq<ServerUserOnlineStatusPayload>)

  function Init(user: Option<LoggedInUser>, activeChatId: Option<ChatId>): State {
    State(user, activeChatId, false, map[], map[], false, 0, [], [], [], [], [], [])
  }

  const You := "You"

  /** `table[chatId] || []`: a stored list (empty or not) or the empty list. */
  function Stored(table: map<ChatId, seq<string>>, chatId: ChatId): (r: seq<string>)
    ensures chatId in table ==> r == table[chatId]
    ensures chatId !in table ==> r == []
  {
    if chatId in table then table[chatId] else []
  }

  /** The online list a reader sees: the user itself first, then the server's list. */
  function OnlineView(usersOnline: seq<string>): (r: seq<string>)
    ensures |r| == |usersOnline| + 1 && r[0] == You && r[1..] == usersOnline
  {
    [You] + usersOnline
  }

  /** Every online list readers have been shown, in order. */
  function OnlineViewsSeen(s: State): (r: seq<seq<string>>)
    ensures |r| == |s.onlineViews|
    ensures forall i :: 0 <= i < |r| ==> |r[i]| == |s.onlineViews[i]| + 1 && r[i][0] == You && r[i][1..] == s.onlineViews[i]
  {
    seq(|s.onlineViews|, i requires 0 <= i < |s.onlineViews| => OnlineView(s.onlineViews[i]))
  }

  /** `chatIds.some(id => id == activeChatId)`. */
  function ConcernsActiveChat(chatIds: seq<ChatId>, activeChatId: Option<ChatId>): (r: bool)
    ensures r <==> activeChatId.Some? && activeChatId.value in chatIds
  {
    exists i :: 0 <= i < |chatIds| && Some(chatIds[i]) == activeChatId
  }

  /** `users.filter(u => u != username)`. */
  function WithoutUser(users: seq<string>, username: string): (r: seq<string>)
    ensures username !in r
    ensures forall u :: u != username ==> multiset(r)[u] == multiset(users)[u]
    ensures username !in users ==> r == users
  {
    if users == [] then []
    else
      assert users == [users[0]] + users[1..];
      (if users[0] == username then [] else [users[0]]) + WithoutUser(users[1..], username)
  }

  /** Filtering goes element by element, so the users kept stay in their
      original order: filtering a concatenation filters each part. */
  lemma {:induction false} WithoutUserAppend(a: seq<string>, b: seq<string>, username: string)
    ensures WithoutUser(a + b, username) == WithoutUser(a, username) + WithoutUser(b, username)
    decreases |a|
  {
    if a == [] {
      assert a + b == b;
    } else {
      assert (a + b)[0] == a[0];
      assert (a + b)[1..] == a[1..] + b;
      WithoutUserAppend(a[1..], b, username);
    }
  }

  /** The last typing flag the client has emitted, false if none. */
  function LastTypingFlag(events: seq<ClientEvent>): bool {
    if events == [] then false
    else if events[|events| - 1].Typing? then events[|events| - 1].typing.isTyping
    else LastTypingFlag(events[..|events| - 1])
  }

  /** What holds between every two inputs: `isTyping` is the last flag the
      client sent, and while it is true a stop timer is armed, so a
      typing=true is always followed by a typing=false. */
  predicate Consistent(s: State) {
    s.isTyping == LastTypingFlag(s.outbound) && (s.isTyping ==> s.stopTypingPending)
  }

  /** `emitTyping`: send the flag for the chat active now, then record it. */
  function EmitTyping(s: State, isTyping: bool): (t: State)
    ensures t.outbound == s.outbound + [Typing(ClientTypingPayload(s.activeChatId, isTyping))]
    ensures t.isTyping == isTyping
    ensures t.(outbound := s.outbound, isTyping := s.isTyping) == s
  {
    s.(outbound := s.outbound + [Typing(ClientTypingPayload(s.activeChatId, isTyping))], isTyping := isTyping)
  }

  /** `typingHandler`: without a user nothing happens; otherwise typing=true
      goes out only if the client is not already typing, and the single
      stop timer is (re)armed either way. */
  function TypingHandler(s: State): (t: State)
    ensures s.user.None? ==> t == s
    ensures s.user.Some? ==> t.isTyping && t.stopTypingPending
    ensures s.user.Some? ==>
      t.outbound == s.outbound + (if s.isTyping then [] else [Typing(ClientTypingPayload(s.activeChatId, true))])
    ensures t.(isTyping := s.isTyping, stopTypingPending := s.stopTypingPending, outbound := s.outbound) == s
  {
    if s.user.None? then s
    else
      var emitted := if !s.isTyping then EmitTyping(s, true) else s;
      emitted.(stopTypingPending := true)
  }

  /** The debounced timer fires: typing=false for the chat active at that moment. */
  function FireStopTyping(s: State): (t: State)
    ensures !s.stopTypingPending ==> t == s
    ensures s.stopTypingPending ==>
      && t.outbound == s.outbound + [Typing(ClientTypingPayload(s.activeChatId, false))]
      && !t.isTyping && !t.stopTypingPending
      && t.(outbound := s.outbound, isTyping := s.isTyping, stopTypingPending := true) == s
  {
    if s.stopTypingPending then EmitTyping(s.(stopTypingPending := false), false) else s
  }

  /** A server `typing` event: the chat's list gains the user (duplicates
      kept) or loses every occurrence of them; only the active chat's list
      is pushed to readers. */
  function OnServerTyping(s: State, p: ServerTypingPayload): (t: State)
    ensures t.usersTypingMap.Keys == s.usersTypingMap.Keys + {p.chatId}
    ensures forall c :: c in s.usersTypingMap && c != p.chatId ==> t.usersTypingMap[c] == s.usersTypingMap[c]
    ensures p.isTyping ==> t.usersTypingMap[p.chatId] == Stored(s.usersTypingMap, p.chatId) + [p.username]
    ensures !p.isTyping ==> t.usersTypingMap[p.chatId] == WithoutUser(Stored(s.usersTypingMap, p.chatId), p.username)
    ensures !p.isTyping ==> p.username !in t.usersTypingMap[p.chatId]
    ensures !p.isTyping ==> forall u :: u != p.username ==>
      multiset(t.usersTypingMap[p.chatId])[u] == multiset(Stored(s.usersTypingMap, p.chatId))[u]
    ensures t.typingViews == s.typingViews + (if s.activeChatId == Some(p.chatId) then [t.usersTypingMap[p.chatId]] else [])
    ensures t.(usersTypingMap := s.usersTypingMap, typingViews := s.typingViews) == s
  {
    var before := Stored(s.usersTypingMap, p.chatId);
    var after := if p.isTyping then before + [p.username] else WithoutUser(before, p.username);
    var updated := s.(usersTypingMap := s.usersTypingMap[p.chatId := after]);
    if updated.activeChatId == Some(p.chatId) then updated.(typingViews := updated.typingViews + [after])
    else updated
  }

  /** A server `users-online` event: the chat's list is replaced wholesale;
      only the active chat's list is pushed to readers. */
  function OnUsersOnline(s: State, p: ServerUsersOnlinePayload): (t: State)
    ensures p.chatId in t.usersOnlineMap && t.usersOnlineMap[p.chatId] == p.usersOnline
    ensures t.usersOnlineMap.Keys == s.usersOnlineMap.Keys + {p.chatId}
    ensures forall c :: c in s.usersOnlineMap && c != p.chatId ==> t.usersOnlineMap[c] == s.usersOnlineMap[c]
    ensures t.onlineViews == s.onlineViews + (if s.activeChatId == Some(p.chatId) then [p.usersOnline] else [])
    ensures t.(usersOnlineMap := s.usersOnlineMap, onlineViews := s.onlineViews) == s
  {
    var updated := s.(usersOnlineMap := s.usersOnlineMap[p.chatId := p.usersOnline]);
    if updated.activeChatId == Some(p.chatId) then updated.(onlineViews := updated.onlineViews + [p.usersOnline])
    else updated
  }

  /** `setActiveChatSuccess(chatId)`: both views are re-pushed from the
      tables (online first), whatever was stored while the chat was inactive. */
  function OnSetActiveChatSuccess(s: State, chatId: ChatId): (t: State)
    ensures t.onlineViews == s.onlineViews + [Stored(s.usersOnlineMap, chatId)]
    ensures t.typingViews == s.typingViews + [Stored(s.usersTypingMap, chatId)]
    ensures t.(onlineViews := s.onlineViews, typingViews := s.typingViews) == s
  {
    s.(onlineViews := s.onlineViews + [Stored(s.usersOnlineMap, chatId)],
       typingViews := s.typingViews + [Stored(s.usersTypingMap, chatId)])
  }

  /** `sendMessage`: without a user nothing happens; otherwise a typing=false
      is queued for later and the message goes out unchanged now. */
  function SendMessage(s: State, payload: ClientChatMessagePayload): (t: State)
    ensures s.user.None? ==> t == s
    ensures s.user.Some? ==> t.outbound == s.outbound + [ChatMessage(payload)] && t.deferredStops == s.deferredStops + 1
    ensures t.(outbound := s.outbound, deferredStops := s.deferredStops) == s
  {
    if s.user.None? then s
    else s.(deferredStops := s.deferredStops + 1, outbound := s.outbound + [ChatMessage(payload)])
  }

  /** One queued typing=false callback runs. */
  function FireDeferredStop(s: State): (t: State)
    ensures s.deferredStops == 0 ==> t == s
    ensures s.deferredStops > 0 ==>
      && t.outbound == s.outbound + [Typing(ClientTypingPayload(s.activeChatId, false))]
      && !t.isTyping && t.deferredStops == s.deferredStops - 1
      && t.(outbound := s.outbound, isTyping := s.isTyping, deferredStops := s.deferredStops) == s
  {
    if s.deferredStops > 0 then EmitTyping(s.(deferredStops := s.deferredStops - 1), false) else s
  }

  /** A server `chat-message` event: `newMessage` is dispatched for every
      chat; only the active chat's messages reach the readers. */
  function OnServerChatMessage(s: State, p: ServerChatMessagePayload): (t: State)
    ensures t.dispatched == s.dispatched + [NewMessage(p)]
    ensures t.messageUpdates == s.messageUpdates + (if s.activeChatId == Some(p.chatId) then [p] else [])
    ensures t.(dispatched := s.dispatched, messageUpdates := s.messageUpdates) == s
  {
    s.(dispatched := s.dispatched + [NewMessage(p)],
       messageUpdates := s.messageUpdates + if s.activeChatId == Some(p.chatId) then [p] else [])
  }

  /** A server `user-online-status` event reaches the readers only if it
      lists the active chat. */
  function OnUserOnlineStatus(s: State, p: ServerUserOnlineStatusPayload): (t: State)
    ensures t.userEvents == s.userEvents + (if s.activeChatId.Some? && s.activeChatId.value in p.chatIds then [p] else [])
    ensures t.(userEvents := s.userEvents) == s
  {
    if ConcernsActiveChat(p.chatIds, s.activeChatId) then s.(userEvents := s.userEvents + [p]) else s
  }

  /** The store subscription: the service's view of the user and of the active chat. */
  function OnStoreUpdate(s: State, user: Option<LoggedInUser>, activeChatId: Option<ChatId>): (t: State)
    ensures t.user == user && t.activeChatId == activeChatId
    ensures t.(user := s.user, activeChatId := s.activeChatId) == s
  {
    s.(user := user, activeChatId := activeChatId)
  }

  /** The response to joining the global chat, through the shared error
      handler: success or the error action, dispatched once. */
  function OnJoinGlobalChatResponse(s: State, res: HttpResult<JoinResponse>): (t: State)
    ensures res.Ok? ==> t.dispatched == s.dispatched + [JoinChatSuccess(res.value.chatRoom)]
    ensures res.Err? ==> t.dispatched == s.dispatched + [Failed(res.response)]
    ensures t.(dispatched := s.dispatched) == s
  {
    var action := match res
      case Ok(r) => JoinChatSuccess(r.chatRoom)
      case Err(e) => Failed(e);
    s.(dispatched := s.dispatched + [action])
  }

  /** Everything the service reacts to. */
  datatype Input =
    | TypingCall
    | StopTimerFires
    | ServerTyping(typing: ServerTypingPayload)
    | UsersOnline(online: ServerUsersOnlinePayload)
    | ActiveChatLoaded(chatId: ChatId)
    | SendCall(message: ClientChatMessagePayload)
    | DeferredStopFires
    | IncomingMessage(incoming: ServerChatMessagePayload)
    | UserStatus(status: ServerUserOnlineStatusPayload)
    | StoreUpdate(user: Option<LoggedInUser>, activeChatId: Option<ChatId>)
    | JoinGlobalChatResponded(response: HttpResult<JoinResponse>)

  /** One input. Only the store subscription changes the user or the
      active chat. */
  function Step(s: State, i: Input): (t: State)
    ensures !i.StoreUpdate? ==> t.user == s.user && t.activeChatId == s.activeChatId
  {
    match i
    case TypingCall => TypingHandler(s)
    case StopTimerFires => FireStopTyping(s)
    case ServerTyping(p) => OnServerTyping(s, p)
    case UsersOnline(p) => OnUsersOnline(s, p)
    case ActiveChatLoaded(c) => OnSetActiveChatSuccess(s, c)
    case SendCall(p) => SendMessage(s, p)
    case DeferredStopFires => FireDeferredStop(s)
    case IncomingMessage(p) => OnServerChatMessage(s, p)
    case UserStatus(p) => OnUserOnlineStatus(s, p)
    case StoreUpdate(u, a) => OnStoreUpdate(s, u, a)
    case JoinGlobalChatResponded(r) => OnJoinGlobalChatResponse(s, r)
  }

  /** The inputs processed one after another, on the service's single timeline. */
  function Run(s: State, inputs: seq<Input>): State
    decreases |inputs|
  {
    if inputs == [] then s
    else
      var next := Step(s, inputs[0]);
      Run(next, inputs[1..])
  }

  function Repeat(i: Input, n: nat): (r: seq<Input>)
    ensures |r| == n && forall k :: 0 <= k < n ==> r[k] == i
  {
    if n == 0 then [] else [i] + Repeat(i, n - 1)
  }

  lemma RunCons(s: State, i: Input, rest: seq<Input>)
    ensures Run(s, [i] + rest) == Run(Step(s, i), rest)
  {
    assert ([i] + rest)[1..] == rest;
  }

  lemma {:induction false} RunAppend(s: State, a: seq<Input>, b: seq<Input>)
    ensures Run(s, a + b) == Run(Run(s, a), b)
    decreases |a|
  {
    if a == [] {
      assert a + b == b;
    } else {
      assert a + b == [a[0]] + (a[1..] + b);
      assert a == [a[0]] + a[1..];
      RunCons(s, a[0], a[1..] + b);
      RunCons(s, a[0], a[1..]);
      RunAppend(Step(s, a[0]), a[1..], b);
    }
  }

  lemma LastTypingFlagAfterTyping(events: seq<ClientEvent>, p: ClientTypingPayload)
    ensures LastTypingFlag(events + [Typing(p)]) == p.isTyping
  {
  }

  lemma LastTypingFlagAfterMessage(events: seq<ClientEvent>, m: ClientChatMessagePayload)
    ensures LastTypingFlag(events + [ChatMessage(m)]) == LastTypingFlag(events)
  {
    assert (events + [ChatMessage(m)])[..|events|] == events;
  }

  lemma InitConsistent(user: Option<LoggedInUser>, activeChatId: Option<ChatId>)
    ensures Consistent(Init(user, activeChatId))
  {
  }

  /** Every input keeps the typing invariant. */
  lemma StepKeepsConsistent(s: State, i: Input)
    requires Consistent(s)
    ensures Consistent(Step(s, i))
  {
    match i
    case TypingCall =>
      if s.user.Some? && !s.isTyping {
        LastTypingFlagAfterTyping(s.outbound, ClientTypingPayload(s.activeChatId, true));
      }
    case StopTimerFires =>
      if s.stopTypingPending {
        LastTypingFlagAfterTyping(s.outbound, ClientTypingPayload(s.activeChatId, false));
      }
    case SendCall(p) =>
      if s.user.Some? {
        LastTypingFlagAfterMessage(s.outbound, p);
      }
    case DeferredStopFires =>
      if s.deferredStops > 0 {
        LastTypingFlagAfterTyping(s.outbound, ClientTypingPayload(s.activeChatId, false));
      }
    case _ =>
  }

  lemma {:induction false} RunKeepsConsistent(s: State, inputs: seq<Input>)
    requires Consistent(s)
    ensures Consistent(Run(s, inputs))
    decreases |inputs|
  {
    if inputs != [] {
      StepKeepsConsistent(s, inputs[0]);
      RunKeepsConsistent(Step(s, inputs[0]), inputs[1..]);
    }
  }

  /** Any number of keystrokes in a row (with a user) send typing=true at
      most once, and only if the client was not typing; they leave one
      armed stop timer and change nothing else. */
  lemma {:induction false} TypingBurst(s: State, n: nat)
    requires s.user.Some? && n >= 1
    ensures Run(s, Repeat(TypingCall, n)).outbound
      == s.outbound + (if s.isTyping then [] else [Typing(ClientTypingPayload(s.activeChatId, true))])
    ensures Run(s, Repeat(TypingCall, n)) == s.(isTyping := true, stopTypingPending := true,
      outbound := Run(s, Repeat(TypingCall, n)).outbound)
    decreases n
  {
    var t := TypingHandler(s);
    assert Repeat(TypingCall, n)[1..] == Repeat(TypingCall, n - 1);
    if n > 1 {
      TypingBurst(t, n - 1);
    }
  }

  /** A burst of keystrokes from a client that was not typing, followed by
      the stop timer, puts exactly one typing=true and one typing=false on
      the wire. */
  lemma TypingBurstThenStop(s: State, n: nat)
    requires s.user.Some? && !s.isTyping && n >= 1
    ensures Run(s, Repeat(TypingCall, n) + [StopTimerFires]).outbound
      == s.outbound + [Typing(ClientTypingPayload(s.activeChatId, true)), Typing(ClientTypingPayload(s.activeChatId, false))]
    ensures !Run(s, Repeat(TypingCall, n) + [StopTimerFires]).isTyping
  {
    RunAppend(s, Repeat(TypingCall, n), [StopTimerFires]);
    TypingBurst(s, n);
  }

  /** The typing=false sent by the timer carries the chat that is active
      when it fires, not the one active when the user typed. */
  lemma StopUsesChatActiveAtFiring(s: State, user: Option<LoggedInUser>, later: Option<ChatId>)
    requires s.user.Some?
    ensures var t := Run(s, [TypingCall, StoreUpdate(user, later), StopTimerFires]);
      |t.outbound| > 0 && t.outbound[|t.outbound| - 1] == Typing(ClientTypingPayload(later, false))
  {
    var t1 := TypingHandler(s);
    var t2 := OnStoreUpdate(t1, user, later);
    assert [TypingCall, StoreUpdate(user, later), StopTimerFires] == [TypingCall] + ([StoreUpdate(user, later)] + [StopTimerFires]);
    RunCons(s, TypingCall, [StoreUpdate(user, later)] + [StopTimerFires]);
    RunCons(t1, StoreUpdate(user, later), [StopTimerFires]);
    RunCons(t2, StopTimerFires, []);
    assert t2.stopTypingPending && t2.activeChatId == later;
    var t3 := FireStopTyping(t2);
    assert t3.outbound == t2.outbound + [Typing(ClientTypingPayload(later, false))];
    assert Run(t3, []) == t3;
  }

  /** A message sent by a logged-in user leaves before the typing=false it
      schedules, and that typing=false leaves the client not typing. */
  lemma SendThenDeferredStop(s: State, p: ClientChatMessagePayload)
    requires s.user.Some?
    ensures Run(s, [SendCall(p), DeferredStopFires]).outbound
      == s.outbound + [ChatMessage(p), Typing(ClientTypingPayload(s.activeChatId, false))]
    ensures !Run(s, [SendCall(p), DeferredStopFires]).isTyping
    ensures Run(s, [SendCall(p), DeferredStopFires]).deferredStops == s.deferredStops
  {
    assert [SendCall(p), DeferredStopFires] == [SendCall(p)] + [DeferredStopFires];
    RunCons(s, SendCall(p), [DeferredStopFires]);
    RunCons(SendMessage(s, p), DeferredStopFires, []);
  }

  /** An input that concerns only chats other than the active one (or a
      status event not listing it). */
  predicate Background(s: State, i: Input) {
    match i
    case ServerTyping(p) => s.activeChatId != Some(p.chatId)
    case UsersOnline(p) => s.activeChatId != Some(p.chatId)
    case IncomingMessage(p) => s.activeChatId != Some(p.chatId)
    case UserStatus(p) => !(s.activeChatId.Some? && s.activeChatId.value in p.chatIds)
    case _ => false
  }

  /** Background inputs update the tables and the store but push nothing
      to the active chat's readers, and do not change the active chat. */
  lemma {:induction false} BackgroundPushesNothing(s: State, inputs: seq<Input>)
    requires forall k :: 0 <= k < |inputs| ==> Background(s, inputs[k])
    ensures var t := Run(s, inputs);
      && t.typingViews == s.typingViews && t.onlineViews == s.onlineViews
      && t.messageUpdates == s.messageUpdates && t.userEvents == s.userEvents
      && t.activeChatId == s.activeChatId && t.outbound == s.outbound
    decreases |inputs|
  {
    if inputs != [] {
      var s1 := Step(s, inputs[0]);
      assert s1.activeChatId == s.activeChatId;
      forall k | 0 <= k < |inputs[1..]|
        ensures Background(s1, inputs[1..][k])
      {
        assert Background(s, inputs[k + 1]);
      }
      BackgroundPushesNothing(s1, inputs[1..]);
    }
  }

  /** Presence gathered while a chat was inactive is what its readers get
      when it becomes active: the online view is "You" and the server's list. */
  lemma SwitchShowsBackgroundPresence(s: State, p: ServerUsersOnlinePayload)
    requires s.activeChatId != Some(p.chatId)
    ensures var t := Run(s, [UsersOnline(p), ActiveChatLoaded(p.chatId)]);
      && t.onlineViews == s.onlineViews + [p.usersOnline]
      && OnlineViewsSeen(t)[|s.onlineViews|] == [You] + p.usersOnline
  {
    var s1 := OnUsersOnline(s, p);
    var s2 := OnSetActiveChatSuccess(s1, p.chatId);
    assert [UsersOnline(p), ActiveChatLoaded(p.chatId)] == [UsersOnline(p)] + [ActiveChatLoaded(p.chatId)];
    RunCons(s, UsersOnline(p), [ActiveChatLoaded(p.chatId)]);
    RunCons(s1, ActiveChatLoaded(p.chatId), []);
    assert Run(s, [UsersOnline(p), ActiveChatLoaded(p.chatId)]) == s2;
    assert s1.onlineViews == s.onlineViews && s1.usersOnlineMap[p.chatId] == p.usersOnline;
    assert s2.onlineViews == s.onlineViews + [p.usersOnline];
    assert OnlineViewsSeen(s2)[|s.onlineViews|] == OnlineView(p.usersOnline);
  }

  /** What has left the service is never taken back: after any inputs, the
      socket log, the dispatched actions and both view logs extend the old ones. */
  lemma {:induction false} RunOnlyAppends(s: State, inputs: seq<Input>)
    ensures var t := Run(s, inputs);
      && s.outbound <= t.outbound && s.dispatched <= t.dispatched
      && s.typingViews <= t.typingViews && s.onlineViews <= t.onlineViews
    decreases |inputs|
  {
    if inputs != [] {
      var s1 := Step(s, inputs[0]);
      StepOnlyAppends(s, inputs[0]);
      RunOnlyAppends(s1, inputs[1..]);
      PrefixTransitive(s.outbound, s1.outbound, Run(s1, inputs[1..]).outbound);
      PrefixTransitive(s.dispatched, s1.dispatched, Run(s1, inputs[1..]).dispatched);
      PrefixTransitive(s.typingViews, s1.typingViews, Run(s1, inputs[1..]).typingViews);
      PrefixTransitive(s.onlineViews, s1.onlineViews, Run(s1, inputs[1..]).onlineViews);
    }
  }

  lemma StepOnlyAppends(s: State, i: Input)
    ensures var t := Step(s, i);
      && s.outbound <= t.outbound && s.dispatched <= t.dispatched
      && s.typingViews <= t.typingViews && s.onlineViews <= t.onlineViews
  {
    match i
    case TypingCall =>
    case StopTimerFires =>
    case ServerTyping(p) =>
    case UsersOnline(p) =>
    case ActiveChatLoaded(c) =>
    case SendCall(p) =>
    case DeferredStopFires =>
    case IncomingMessage(p) =>
    case UserStatus(p) =>
    case StoreUpdate(u, a) =>
    case JoinGlobalChatResponded(r) =>
  }

  lemma PrefixTransitive<T>(a: seq<T>, b: seq<T>, c: seq<T>)
    requires a <= b && b <= c
    ensures a <= c
  {
    assert a == b[..|a|];
    assert b[..|a|] == c[..|b|][..|a|];
  }

  /** No input ever forgets a chat's typing or online list. */
  lemma StepKeepsTables(s: State, i: Input)
    ensures s.usersTypingMap.Keys <= Step(s, i).usersTypingMap.Keys
    ensures s.usersOnlineMap.Keys <= Step(s, i).usersOnlineMap.Keys
  {
  }
}
