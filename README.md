# Realtime chat client: synchronisation layer, request shaping and credential rules

This project models the part of the realtime chat application that decides
what the client sends and shows, and proves properties of it in Dafny:

- **The chat service** (`client/src/app/services/chat.service.ts`). It holds the
  client's own typing state, with a debounced "stop typing" timer. It keeps
  per-chat tables of who is typing and who is online, filled from socket
  events. It pushes the active chat's lists to the views, re-pushes them when
  the active chat changes, and guards `sendMessage` behind a logged-in user.
  Module `ChatSync` gives every input of the service as a function from the
  old state to the new one. Class `ChatService.ChatService` has the source's
  fields and handlers, and each handler is proved to follow its function.
  The two timers have no clock. Each is a pending slot with an explicit
  `Fire` step: the debounce is one boolean slot that every keystroke re-arms,
  and the macro-queue callbacks of `sendMessage` are a counter.
- **The HTTP wrapper** (`client/src/app/services/base-http-client.service.ts`).
  Module `HttpClient` covers the URL `baseUrl + endpoint`, the `body || {}`
  of `post`, and `sanitizeOptions`. `sanitizeOptions` updates a mutable
  options object in place: it moves the stored token into
  `Authorization: Bearer <token>` and deletes a per-request `bearerToken`.
  `handleError` maps a failure to an error value and dispatches `logout`
  on 401.
- **The chats effects** (`client/src/app/store/chats/chats.effects.ts`).
  Module `ChatsEffects` turns each action into the fetches it issues and
  the actions it emits. The messages cache and the backend's answers are
  parameters.
- **The credential DTOs** (`server/src/users/dto/auth-credetials.dto.ts`).
  Module `Credentials` gives the validation table's constants and messages.
  It models the password pattern with JavaScript's regular-expression
  semantics: an unanchored search, ASCII `\d`/`\w`, `.` stopping at line
  terminators, and `$` at the end of the input. It also gives the four
  classes' decorator checks as sets of violated constraints.

Shared payload, action and error types are in module `Shared`.

The model follows the code, which:
- never clears a typing entry by a timeout;
- does not coalesce concurrent loads of one chat (`LoadsAreNotCoalesced`);
- emits nothing at all when a chat's messages fail to load (see Findings);
- does not de-duplicate messages in the service; it only dispatches `newMessage`;
- deletes a per-request `bearerToken` only when it is a non-empty string
  (`if (options?.bearerToken)`), so an empty one stays in the options. It is
  never used for the header either way.

## Model

| member | source | states |
|---|---|---|
| ChatSync.Stored | client/src/app/services/chat.service.ts:68-69 | `table[chatId] \|\| []` is the stored list, including an empty one, or `[]` when the chat has none |
| ChatSync.OnlineView | client/src/app/services/chat.service.ts:77-79 | readers of the online list see `"You"` first, then exactly the server's list |
| ChatSync.OnlineViewsSeen | client/src/app/services/chat.service.ts:77-79 | every online view ever shown starts with `"You"`, followed by the list that was pushed |
| ChatSync.ConcernsActiveChat | client/src/app/services/chat.service.ts:120 | a status event passes iff an active chat is set and its id is among the event's `chatIds` |
| ChatSync.WithoutUser | client/src/app/services/chat.service.ts:69 | filtering removes every occurrence of the user and keeps every other user's multiplicity; a list without the user comes back unchanged |
| ChatSync.WithoutUserAppend | client/src/app/services/chat.service.ts:69 | filtering a concatenation filters each part, so the users kept stay in their original order |
| ChatSync.EmitTyping | client/src/app/services/chat.service.ts:46-49 | one typing event with the chat active at emission goes out, then `isTyping` equals the emitted flag; nothing else changes |
| ChatSync.TypingHandler | client/src/app/services/chat.service.ts:50-56 | no user: nothing changes; otherwise `typing=true` goes out only if not already typing, and the stop timer is armed either way |
| ChatSync.FireStopTyping | client/src/app/services/chat.service.ts:45-48 | an armed debounce timer sends `typing=false` for the chat active when it fires and disarms; an idle one does nothing |
| ChatSync.OnServerTyping | client/src/app/services/chat.service.ts:64-73 | `isTyping=true` appends the user without de-duplication; `false` stores exactly the old list filtered by `WithoutUser` (every occurrence gone, the order of the rest kept); other chats' lists unchanged; the list is pushed only for the active chat |
| ChatSync.OnUsersOnline | client/src/app/services/chat.service.ts:81-89 | the chat's list is replaced wholesale, other chats are unchanged, and the list is pushed only for the active chat |
| ChatSync.OnSetActiveChatSuccess | client/src/app/services/chat.service.ts:91-94 | the online list and the typing list stored for the chat (or empty) are each pushed once; nothing else changes |
| ChatSync.SendMessage | client/src/app/services/chat.service.ts:96-101 | no user: nothing; otherwise the payload goes out unchanged now and one `typing=false` is queued |
| ChatSync.FireDeferredStop | client/src/app/services/chat.service.ts:99 | a queued callback sends `typing=false` and leaves the client not typing |
| ChatSync.OnServerChatMessage | client/src/app/services/chat.service.ts:102-107 | `newMessage` is dispatched for every chat; the message reaches readers only for the active chat |
| ChatSync.OnUserOnlineStatus | client/src/app/services/chat.service.ts:117-121 | a status event reaches readers iff its `chatIds` contains the active chat |
| ChatSync.OnStoreUpdate | client/src/app/services/chat.service.ts:34-37 | the store subscription replaces the user and the active chat and nothing else |
| ChatSync.OnJoinGlobalChatResponse | client/src/app/services/chat.service.ts:167-178 | a join response dispatches `joinChatSuccess(chatRoom)`, or the error action for an error value, exactly once |
| ChatSync.Consistent | client/src/app/services/chat.service.ts:43-56 | the typing invariant: `isTyping` is the last flag sent, and a stop timer is armed while it is true |
| ChatSync.Step | client/src/app/services/chat.service.ts:34-121 | one input goes to its handler; only the store subscription changes the user or the active chat |
| ChatSync.Run | client/src/app/services/chat.service.ts:34-121 | the inputs handled one after another on the service's single timeline |
| ChatSync.RunOnlyAppends | client/src/app/services/chat.service.ts:43-121 | after any inputs, the socket log, the dispatched actions and both view logs extend the old ones: nothing sent is taken back |
| ChatSync.InitConsistent | client/src/app/services/chat.service.ts:44 | the service starts not typing, with no timer armed, consistent with an empty event log |
| ChatSync.StepKeepsConsistent | client/src/app/services/chat.service.ts:43-56 | every input keeps `isTyping` equal to the last flag sent, and keeps a stop timer armed while typing |
| ChatSync.RunKeepsConsistent | client/src/app/services/chat.service.ts:43-101 | the same holds after any sequence of inputs: whenever the last flag sent is `typing=true`, a stop timer is armed to send `typing=false` |
| ChatSync.TypingBurst | client/src/app/services/chat.service.ts:50-56 | n keystrokes in a row send `typing=true` at most once and leave a single armed timer (a reset, not a stack) |
| ChatSync.TypingBurstThenStop | client/src/app/services/chat.service.ts:45-56 | a burst then the timer puts exactly one `typing=true` and one `typing=false` on the wire |
| ChatSync.StopUsesChatActiveAtFiring | client/src/app/services/chat.service.ts:45-48 | the timer's `typing=false` carries the chat active when it fires, not when the user typed |
| ChatSync.SendThenDeferredStop | client/src/app/services/chat.service.ts:96-101 | the message leaves before the deferred `typing=false`, which leaves the client not typing |
| ChatSync.BackgroundPushesNothing | client/src/app/services/chat.service.ts:64-121 | events for inactive chats push nothing to readers, send nothing on the socket and keep the active chat |
| ChatSync.SwitchShowsBackgroundPresence | client/src/app/services/chat.service.ts:81-94 | presence received while a chat was inactive is what its readers get (`"You"` first) when it becomes active |
| ChatSync.StepKeepsTables | client/src/app/services/chat.service.ts:63-94 | no input removes a chat from the typing or online table |
| ChatService.ChatPath | client/src/app/services/chat.service.ts:124-126 | the chat path is the prefix `/chats/chat/` followed by exactly the chat id |
| ChatService.ChatMessagesPath | client/src/app/services/chat.service.ts:127-129 | the messages path is the chat path followed by `/messages` |
| ChatService.ChatPathInjective | client/src/app/services/chat.service.ts:124-126 | two chat paths are equal iff the chat ids are |
| ChatService.ChatMessagesPathInjective | client/src/app/services/chat.service.ts:127-129 | equal messages paths come from equal chat ids |
| ChatService.MessagesPathIsNotChatPath | client/src/app/services/chat.service.ts:124-129 | a messages path never equals the chat path of a slash-free id |
| ChatService.ResponseBodies | client/src/app/services/chat.service.ts:142-151 | `reportProgress`'s filter lets only a response through, giving its body; an error value yields nothing |
| ChatService.ChatService.constructor | client/src/app/services/chat.service.ts:27-44 | the service starts in the initial, consistent state |
| ChatService.ChatService.OnStoreUpdate | client/src/app/services/chat.service.ts:34-37 | updates the fields as `ChatSync.OnStoreUpdate` |
| ChatService.ChatService.EmitTyping | client/src/app/services/chat.service.ts:46-49 | updates the fields as `ChatSync.EmitTyping` |
| ChatService.ChatService.TypingHandler | client/src/app/services/chat.service.ts:50-56 | updates the fields as `ChatSync.TypingHandler` and keeps the typing invariant |
| ChatService.ChatService.FireStopTyping | client/src/app/services/chat.service.ts:45 | updates the fields as `ChatSync.FireStopTyping` and keeps the typing invariant |
| ChatService.ChatService.OnServerTyping | client/src/app/services/chat.service.ts:64-73 | updates the typing table in place and pushes as `ChatSync.OnServerTyping` |
| ChatService.ChatService.OnUsersOnline | client/src/app/services/chat.service.ts:81-89 | updates the online table in place and pushes as `ChatSync.OnUsersOnline` |
| ChatService.ChatService.OnSetActiveChatSuccess | client/src/app/services/chat.service.ts:91-94 | re-pushes both lists as `ChatSync.OnSetActiveChatSuccess` |
| ChatService.ChatService.SendMessage | client/src/app/services/chat.service.ts:96-101 | sends and queues as `ChatSync.SendMessage` and keeps the typing invariant |
| ChatService.ChatService.FireDeferredStop | client/src/app/services/chat.service.ts:99 | runs one queued callback as `ChatSync.FireDeferredStop` |
| ChatService.ChatService.OnServerChatMessage | client/src/app/services/chat.service.ts:102-107 | dispatches and forwards as `ChatSync.OnServerChatMessage` |
| ChatService.ChatService.OnUserOnlineStatus | client/src/app/services/chat.service.ts:117-121 | forwards as `ChatSync.OnUserOnlineStatus` |
| ChatService.ChatService.OnJoinGlobalChatResponse | client/src/app/services/chat.service.ts:170-177 | dispatches as `ChatSync.OnJoinGlobalChatResponse` |
| ChatService.ChatService.GetChat | client/src/app/services/chat.service.ts:124-126 | a GET of `baseUrl + /chats/chat/<id>` with the sanitised empty options |
| ChatService.ChatService.GetChatMessages | client/src/app/services/chat.service.ts:127-134 | a GET of `baseUrl + /chats/chat/<id>/messages` with `reportProgress` and `observe: 'events'` kept and the token added |
| ChatService.ChatService.CreateChat | client/src/app/services/chat.service.ts:154-156 | a POST of `{title}` to `baseUrl + /chats/chat` |
| ChatService.ChatService.GetJoinedChats | client/src/app/services/chat.service.ts:158-160 | a GET of `baseUrl + /chats/joined` |
| ChatService.ChatService.GetGlobalChatPreview | client/src/app/services/chat.service.ts:162-164 | a GET of `baseUrl + /chats/globalChat` |
| ChatService.ChatService.JoinGlobalChat | client/src/app/services/chat.service.ts:167-169 | a POST to `baseUrl + /chats/globalChat/join` with no body, so `{}` is sent |
| HttpClient.PostBody | client/src/app/services/base-http-client.service.ts:73 | a falsy body becomes `{}`, any other is sent unchanged, and the result is never falsy |
| HttpClient.WithAuthorization | client/src/app/services/base-http-client.service.ts:98-101 | the result has `Authorization = "Bearer " + token`; it keeps every other caller header and adds none |
| HttpClient.Sanitized | client/src/app/services/base-http-client.service.ts:97-119 | with a token: caller headers plus an overriding Authorization. Without one: headers untouched and absent options give `{}`. A non-empty per-request token is removed. Other properties are kept |
| HttpClient.RequestTokenNeverUsed | client/src/app/services/base-http-client.service.ts:103-106 | the resulting headers do not depend on the per-request `bearerToken` |
| HttpClient.ErrorValueFor | client/src/app/services/base-http-client.service.ts:126-151 | status 0 gives the fixed client-side error; any other status gives `{error: err.error}` |
| HttpClient.BaseHttpClient.OnStoreUpdate | client/src/app/services/base-http-client.service.ts:22 | the stored token follows the store |
| HttpClient.BaseHttpClient.SanitizeOptions | client/src/app/services/base-http-client.service.ts:97-119 | updates the given options object in place, or returns a fresh one when none is given; its value is `Sanitized` of the old value |
| HttpClient.BaseHttpClient.Get | client/src/app/services/base-http-client.service.ts:46-51 | URL is exactly `baseUrl + endpoint`, with no body and sanitised options; a given options object now holds those options |
| HttpClient.BaseHttpClient.Post | client/src/app/services/base-http-client.service.ts:69-74 | URL is exactly `baseUrl + endpoint`, the body is `body \|\| {}`, and the options are sanitised; a given options object now holds those options |
| HttpClient.BaseHttpClient.Patch | client/src/app/services/base-http-client.service.ts:82-87 | URL is exactly `baseUrl + endpoint`; the body is sent as given, even when falsy; a given options object now holds the sanitised options |
| HttpClient.BaseHttpClient.Delete | client/src/app/services/base-http-client.service.ts:89-94 | URL is exactly `baseUrl + endpoint`, with no body and sanitised options; a given options object now holds those options |
| HttpClient.BaseHttpClient.HandleError | client/src/app/services/base-http-client.service.ts:122-154 | returns the error value; `logout` is dispatched exactly once on 401 and never otherwise |
| HttpClient.BaseHttpClient.Settle | client/src/app/services/base-http-client.service.ts:50 | a response passes through unchanged; a failure becomes an error value, never an exception |
| ChatsEffects.HandleError | client/src/app/store/chats/chats.effects.ts:54-56 | an error value becomes the error action, never the success action |
| ChatsEffects.ForwardSetActiveChat | client/src/app/store/chats/chats.effects.ts:31-36 | `setActiveChat(c)` yields `loadActiveChatMessages(c)` |
| ChatsEffects.LoadActiveChat | client/src/app/store/chats/chats.effects.ts:38-61 | cache hit (even an empty list): success with `alreadyStored`, no fetch. Miss: exactly one fetch of that chat's messages, then success with the fetched list, or nothing at all when the fetch fails; never the error action |
| ChatsEffects.LoadActiveChatIntended | client/src/app/store/chats/chats.effects.ts:52-58 | as intended: the same as `LoadActiveChat` when cached or fetched, and a failed fetch gives exactly one error action |
| ChatsEffects.FailedLoadIsSilent | client/src/app/services/chat.service.ts:149 | an uncached chat whose fetch fails gets no action, where the intended effect emits `Failed` after the same fetch |
| ChatsEffects.CreateChat | client/src/app/store/chats/chats.effects.ts:63-80 | one POST; `createChatSuccess(created)` iff the response is not an error, otherwise the error action |
| ChatsEffects.SetCreatedChatActive | client/src/app/store/chats/chats.effects.ts:81-86 | `createChatSuccess(c)` yields `setActiveChat(c.id)` |
| ChatsEffects.LoadJoinedChatPreviews | client/src/app/store/chats/chats.effects.ts:88-101 | one GET of the joined chats; success carries exactly the fetched list, and an error never yields success |
| ChatsEffects.Effects | client/src/app/store/chats/chats.effects.ts:31-101 | each effect reacts only to its own action type; any other action causes nothing |
| ChatsEffects.SelectingAChatLoadsIt | client/src/app/store/chats/chats.effects.ts:31-61 | selecting a chat loads it: from the cache without a fetch, or with exactly one fetch; a failed fetch ends the chain after `loadActiveChatMessages` |
| ChatsEffects.CreatedChatBecomesActive | client/src/app/store/chats/chats.effects.ts:63-86 | a successful create chains to `createChatSuccess`, then `setActiveChat(id)`, then a load of that chat, whose success follows unless the chat is uncached and its fetch fails (3 actions then, 4 otherwise) |
| ChatsEffects.FailedCreateStops | client/src/app/store/chats/chats.effects.ts:63-80 | a failed create ends at the error action, with no success and no further actions |
| ChatsEffects.Cascade | client/src/app/store/chats/chats.effects.ts:31-101 | each emitted action is dispatched back to the effects against the same snapshot; the first action's own reaction comes first, and each step adds at most one fetch and one action |
| ChatsEffects.Dispatch | client/src/app/store/chats/chats.effects.ts:22-41 | the requests of actions handled against one mirrored snapshot of the store: at most one per action, and for one action exactly its effect's |
| ChatsEffects.DispatchAppend | client/src/app/store/chats/chats.effects.ts:38-41 | `mergeMap` starts each request at once, so the requests go out in the order the actions are dispatched |
| ChatsEffects.LoadsAreNotCoalesced | client/src/app/store/chats/chats.effects.ts:22-58 | n loads of the same uncached chat dispatched before its messages are stored fetch them exactly n times |
| Credentials.MatchesAt | server/src/users/dto/auth-credetials.dto.ts:10 | the pattern tried at one position: each lookahead finds its class before the line ends, the first character is not `.` or a line feed, and the line runs to the end of the input |
| Credentials.PasswordPatternMatches | server/src/users/dto/auth-credetials.dto.ts:10 | `@Matches` searches: the pattern matches at some position; what that means is `PatternCharacterization` |
| Credentials.PatternCharacterization | server/src/users/dto/auth-credetials.dto.ts:10 | the pattern matches iff the last line, after its leading dots, holds an upper-case letter, a lower-case letter and a digit or non-word character |
| Credentials.PatternOnOneLine | server/src/users/dto/auth-credetials.dto.ts:10 | the same for a password without line breaks: skip the leading dots, then the rest must hold all three |
| Credentials.Message | server/src/users/dto/auth-credetials.dto.ts:9-55 | each of the table's five rules and the login's custom rule reports its own message; `Password`'s bare `@IsNotEmpty` keeps the library's default |
| Credentials.PasswordViolations | server/src/users/dto/auth-credetials.dto.ts:27-32 | valid iff a non-empty string of length ≥ 8 that matches the pattern; the length violation is present iff shorter than 8 |
| Credentials.UsernameViolations | server/src/users/dto/auth-credetials.dto.ts:34-39 | valid iff a string with 3 ≤ length ≤ 20, with one violation per bound |
| Credentials.SignupViolations | server/src/users/dto/auth-credetials.dto.ts:41-48 | valid iff the username rules, the e-mail check and the password length and pattern all hold; no emptiness rule on the password |
| Credentials.LoginViolations | server/src/users/dto/auth-credetials.dto.ts:50-58 | valid iff both fields are non-empty strings |
| Credentials.ShortPasswordRefused | server/src/users/dto/auth-credetials.dto.ts:27-48 | a password shorter than 8 is refused with the length message by both `Password` and `SignupCredentialsDTO` |
| Credentials.EszettPasswordAccepted | server/src/users/dto/auth-credetials.dto.ts:10 | `"ßßßßßßßß"` is accepted: `ß` is in both letter classes and is non-word for `\W` |
| Credentials.LeadingDotsDoNotCount | server/src/users/dto/auth-credetials.dto.ts:10 | `".......aB"` fails the pattern (and only the pattern): leading dots are skipped, not counted |
| Credentials.LaterDotCounts | server/src/users/dto/auth-credetials.dto.ts:10 | `"aB.aaaaa"` is accepted: a dot after the start counts as a non-word character |
| Credentials.EmptyUsernameFailsMinimum | server/src/users/dto/auth-credetials.dto.ts:18-39 | an empty username fails only the minimum; a missing one fails both bounds |
| Credentials.LoginHasNoStrengthRule | server/src/users/dto/auth-credetials.dto.ts:50-58 | any two non-empty strings pass login validation |

## Left out

- `reportProgress` (chat.service.ts:135-152): the progress percentage (floating point) and the callback are not modelled. Its filter is: `ResponseBodies` keeps only the response's body and drops the error value, which is why a failed message load emits nothing. The intermediate sent and progress events are not modelled.
- `getChatInitializationUpdates` and the `getUsersTyping`/`getUsersOnline` observable plumbing: they only pass values on. The pushed lists are the `typingViews`/`onlineViews` logs, and readers' online lists are `OnlineView` of them.
- `getAsync`/`postAsync` and `promisifyObservable`: their bodies are not part of this model.
- The bodies of `debounce` and `moveToMacroQueue` are not part of this model. The debounce is one pending slot that each call re-arms. Each `moveToMacroQueue` call queues its own callback, counted in `deferredStops`. Firing an empty slot does nothing.
- Socket and HTTP transport, RxJS subscriptions and the toast service. Each socket event or action reaches the service's handler exactly once. In the source, `getChatMessageUpdates` dispatches once per subscriber.
- The shared handlers `handleError`, `throwIfErrorExists` and `catchAndHandleError` are not part of this model. Here an error value that reaches them becomes a `Failed` action carrying it, and never the success action.
- The reducer that stores loaded messages is not modelled, so `Dispatch` covers actions handled before the snapshot changes.
- Dispatch: only the order of the requests is modelled. The actions they lead to arrive with their responses (a cached load answers at once, an uncached one later), and that arrival order is not modelled, so `Dispatch` does not return emitted actions.
- The reducers, including the one that applies `newMessage`. No de-duplication or ordering of messages is modelled.
- `IsEmail` and the other decorator implementations belong to the validation library. The e-mail check is a parameter. Length is the number of characters; the library's special counting of surrogate pairs and variation selectors is not modelled.
- JavaScript values beyond what is needed: `NaN` as a falsy body, and headers given as an `HttpHeaders` instance rather than a plain object.
- The unreachable `throwError` after the `if`/`else` in `handleError` (base-http-client.service.ts:153) has no counterpart: both branches return.
- Framework wiring (application module and component, server bootstrap), the `GetUser` decorator and the configuration schema: no logic to model.

## Findings

| source | as written | input that shows it | evidently intended | confidence | as-written member | corrected member |
|---|---|---|---|---|---|---|
| client/src/app/store/chats/chats.effects.ts:52-58 | the messages are fetched through `getChatMessages`, whose progress filter (chat.service.ts:149) drops the error value `handleError` produced, so the effect's own `handleError` never sees a failure and no action is emitted | an uncached chat whose messages request fails with status 500 | the failure reaches the handler and becomes the error action, as the effect's call to it expects | high (not executed) | ChatsEffects.FailedLoadIsSilent | ChatsEffects.LoadActiveChatIntended |

The rest of the model keeps the behaviour as written (`LoadActiveChat`, used by `Effects`), since it describes what the application does.
