# Messaging core of a rental-housing H5 app, in Dafny

This project models the client-side messaging core of the app:

- **WebSocketManager** (`src/utils/websocket.ts`) owns one socket and its
  reconnect logic. Reconnects use exponential backoff (1 s doubling, capped
  at 30 s, at most 5 attempts) and are guarded against running twice. It
  also keeps an ordered list of message callbacks, a 30-second heartbeat
  interval, and the normalisation of inbound JSON into the `MessageInfo`
  shape.
- **The chat-session store** (`src/store/modules/message.ts`) keeps:
  - per-party message lists;
  - a session list kept most-recent-first (a session with new traffic is
    moved to the front);
  - a total unread count, recomputed as the sum of the sessions' counts.
- **The AI chat store** (`src/store/modules/aiMessage.ts`) does four things:
  - it repairs the history persisted by the page;
  - it keeps the per-user fixed chat id `user_<id>_fixed`, which is put at
    the front of the chat-id list when it is missing;
  - it applies defaults to history fetched from the server;
  - it accumulates a streamed AI reply into the last message until a chunk
    carries the `[complete]` marker.

State that the source updates in place is a Dafny `class`:
`WebSocket.WebSocketManager`, `MessageStore.ChatStore`,
`AIMessageStore.AIChatStore`, and `AIMessageStore.ReplyStream`. The last one
holds the `streamText` that the EventSource handlers close over.

Each method's contract states the complete new state, in terms of
specification functions whose properties are proved as lemmas. Some things
belong to the browser or the server; they are fields the methods write, or
method parameters:

- the socket's `readyState`;
- the signed-in user's id;
- the current time;
- the value `Number()` gives for a text (`parseNumeric`);
- `JSON.stringify` (`stringify`);
- the HTTP responses;
- the interval timers alive in the page (`liveIntervals`);
- the reconnect timeouts waiting to fire (`pendingConnects`);
- the frames written (`sent`);
- the failure toasts shown (`failureNotices`).

Socket events, timer expiries and SSE events are calls of the handler
methods. An asynchronous action whose code before the `await` reads or
writes store state is split there, so other events can run in between.
`ReceiveMessage` returns the party whose profile `createNewSession` starts
to fetch, and `CreateNewSession` is the continuation that runs once the
profile arrives. `AIChatStore.LoadChatHistory` checks the cache and returns
the chat id it then fetches, and `AIChatStore.HistoryFetched` stores the
response. `loadChatIds` touches no store state before its `await`, so
`AIChatStore.LoadChatIds` is its continuation alone.

Three behaviours of the code are easy to miss:

- `registerCallback` appends the callback even if it is already registered,
  so that callback is then invoked once per registration.
- `onOpen` resets the attempt counter but not the reconnecting flag. After
  one automatic retry, the flag stays set. A later close of the reopened
  socket therefore schedules nothing, and a `send` on a closed socket does
  not reconnect either. The ghost predicate
  `WebSocket.WebSocketManager.EventDriven` states this: when no reconnect is
  in progress the counter is 0, and the counter never passes 1. The
  constructor establishes it and every event handler preserves it (`Connect`,
  `OnOpen`, `OnClose`, `Send`, `ReconnectTimerFired`, `HeartbeatTick`,
  `RegisterCallback`, `UnregisterCallback`, `Disconnect`); `OnClose` and
  `Send` also promise under it that no failure notice is shown and a set
  flag stays set. So the 5-attempt ceiling and the failure toast are reached
  only by calling `reconnect` directly. The scenario method
  `WebSocket.RetryHappensOnce` walks through one such sequence with asserts.
- When a callback throws inside `onmessage`, the `catch` block calls every
  callback again, this time with the frame's raw text.

`AIMessageStore.StreamedReply` walks through a reply streamed in three
chunks and ends with the assembled text in the last message.
`AIMessageStore.FetchOverwritesExchange` shows what the split of
`loadChatHistory` allows. A message is sent to the fixed chat while its
history is still being fetched. The fetched history then replaces the user
message and the empty reply, because the cache is not checked again after
the `await`, and the next chunk of the reply is written into the last
fetched message.

## Model

| member | source | states |
|---|---|---|
| Common.ToNumber | src/utils/websocket.ts:68-69 | `Number()` of undefined is NaN; of null, false and true it is 0, 0 and 1; a number is kept |
| Common.LoggedInId | src/store/modules/message.ts:102 | a user id is usable exactly when it is present and non-zero, and then it is that id |
| Common.NatToString | src/store/modules/aiMessage.ts:46 | the decimal text of a natural is non-empty, all digits, and one digit exactly below 10 |
| Common.IntToString | src/utils/websocket.ts:36 | the decimal text of an integer is all digits for non-negatives and starts with '-' for negatives |
| Common.NatToStringInjective | src/store/modules/aiMessage.ts:46 | distinct naturals print as distinct texts |
| Common.IntToStringInjective | src/store/modules/aiMessage.ts:46 | distinct integers print as distinct texts |
| WebSocket.Pow2 | src/utils/websocket.ts:115 | `Math.pow(2, n)` is at least 1 |
| WebSocket.Pow2Monotone | src/utils/websocket.ts:115 | the power of two grows with the attempt count |
| WebSocket.BackoffDelay | src/utils/websocket.ts:115 | the delay never exceeds 30 s and is either the cap or 1000·2^attempts |
| WebSocket.ScheduledDelayUncapped | src/utils/websocket.ts:115-122 | every delay actually scheduled (attempts below 5) is the uncapped one, at most 16 s |
| WebSocket.DelayCappedFromCeiling | src/utils/websocket.ts:115-117 | from 5 attempts on, the delay is the 30 s cap |
| WebSocket.BackoffMonotone | src/utils/websocket.ts:115 | the delay never decreases as the attempt counter grows |
| WebSocket.Encode | src/utils/websocket.ts:138 | text goes out verbatim, any other value stringified |
| WebSocket.Normalize | src/utils/websocket.ts:66-75 | both user ids go through `Number()`, a falsy createTime becomes the current time (so it is truthy for a non-empty clock), and id, content, isRead, isAi and unreadCount are passed through, with no default for unreadCount |
| WebSocket.DeliveryFor | src/utils/websocket.ts:59-86 | an object yields its normalised record, any other parsed value is passed as is, and unparsable data is passed as the frame's raw text |
| WebSocket.IndexOf | src/utils/websocket.ts:158 | -1 exactly when the callback is absent, else the index of its first occurrence |
| WebSocket.RemoveFirst | src/utils/websocket.ts:158-161 | an unregistered callback leaves the list alone, a registered one shortens it by one; `RemovePresent` states which element goes |
| WebSocket.RemovePresent | src/utils/websocket.ts:157-162 | removing a registered callback cuts out exactly its first occurrence: the length drops by one, the multiset loses one copy, the others keep their order |
| WebSocket.RemoveFirstMembership | src/utils/websocket.ts:149-162 | after removal a callback is still registered iff it had been registered at least twice |
| WebSocket.RegisterThenRemove | src/utils/websocket.ts:149-162 | registering a new callback and then removing it restores the list |
| WebSocket.Dispatch | src/utils/websocket.ts:78 | one `forEach` calls the callbacks in order with the same argument and stops right after the one that throws: every callback when none throws |
| WebSocket.RecoveryRedelivers | src/utils/websocket.ts:78-85 | when a callback throws on the decoded value and none throws on the text, the callbacks up to the thrower see the value and then every callback sees the raw text once |
| WebSocket.ThrowOnNullExample | src/utils/websocket.ts:81-85 | two callbacks, frame `null`, the first throwing: the calls are first(null), first("null"), second("null") |
| WebSocket.WebSocketManager.constructor | src/utils/websocket.ts:8-24 | no socket, counter 0, not reconnecting, no callbacks, no timer; `EventDriven` holds |
| WebSocket.WebSocketManager.Connect | src/utils/websocket.ts:29-42 | without a usable user id nothing changes; otherwise the slot holds a socket on `url/<id>`; nothing else changes |
| WebSocket.WebSocketManager.ClearHeartbeat | src/utils/websocket.ts:193-198 | afterwards no heartbeat timer is held or alive |
| WebSocket.WebSocketManager.StartHeartbeat | src/utils/websocket.ts:176-190 | exactly one heartbeat interval is alive afterwards, a fresh one, and the previous one is cancelled |
| WebSocket.WebSocketManager.OnOpen | src/utils/websocket.ts:47-51 | the counter is 0, one fresh heartbeat runs, the reconnecting flag is unchanged, and `EventDriven` is preserved |
| WebSocket.WebSocketManager.OnMessage | src/utils/websocket.ts:57-87 | a parse error sends every callback the raw text; otherwise every callback gets the decoded delivery in registration order, and if one throws, the pass stops there and every callback gets the raw text; a throw in that second pass leaves the handler |
| WebSocket.WebSocketManager.ForEach | src/utils/websocket.ts:78 | the loop makes exactly the calls of `Dispatch` and reports whether a callback threw |
| WebSocket.WebSocketManager.Reconnect | src/utils/websocket.ts:110-129 | below 5 attempts: one more attempt, one connect scheduled with the backoff delay of the old count, still reconnecting; at 5: nothing scheduled, the flag cleared, one failure notice |
| WebSocket.WebSocketManager.OnClose | src/utils/websocket.ts:92-98 | the heartbeat always stops; a reconnect sequence starts only when none is in progress (`GuardedReconnect`), so a close during one schedules nothing; it preserves `EventDriven`, and under it no failure notice is shown |
| WebSocket.WebSocketManager.ReconnectTimerFired | src/utils/websocket.ts:119-122 | the fired timeout leaves the pending list and `connect` runs |
| WebSocket.WebSocketManager.Send | src/utils/websocket.ts:135-143 | `SendEffect`: if the socket is open, exactly one encoded frame is written and nothing else changes; otherwise nothing is written, the payload is dropped, and a reconnect starts only if none is in progress, with counter, pending timeouts, flag and failure notices stated for both outcomes; the slot, callbacks and heartbeat are kept |
| WebSocket.WebSocketManager.HeartbeatTick | src/utils/websocket.ts:180-189 | a live heartbeat writes one ping when the socket is open, nothing otherwise |
| WebSocket.WebSocketManager.RegisterCallback | src/utils/websocket.ts:149-151 | the callback is appended, duplicates included |
| WebSocket.WebSocketManager.UnregisterCallback | src/utils/websocket.ts:157-162 | the first occurrence is removed; an absent callback leaves the list unchanged |
| WebSocket.WebSocketManager.Disconnect | src/utils/websocket.ts:167-173 | the socket slot is empty and no heartbeat is alive; callbacks and reconnect state are kept |
| MessageStore.UnreadOf | src/store/modules/message.ts:193 | a session counts its own unread count, or 0 without one |
| MessageStore.SumUnread | src/store/modules/message.ts:192-195 | the total is 0 when no session has unread messages; its lemmas split it over concatenation and a prepended session |
| MessageStore.SumUnreadAppend | src/store/modules/message.ts:192-195 | the total of a concatenation is the sum of the totals |
| MessageStore.SumUnreadPrepend | src/store/modules/message.ts:179-182 | a session put first adds its own count to the total |
| MessageStore.SumUnreadNonNegative | src/store/modules/message.ts:192-195 | non-negative session counts give a non-negative total |
| MessageStore.MoveToFront | src/store/modules/message.ts:139-141 | the list keeps its length and the chosen session comes first (as also at lines 85-87); `MoveToFrontShape` and `MoveToFrontSum` complete the picture |
| MessageStore.MoveToFrontShape | src/store/modules/message.ts:139-141 | moving a session to the top keeps length and contents, puts it first and keeps the rest in order |
| MessageStore.MoveToFrontSum | src/store/modules/message.ts:139-141 | moving a session to the top leaves the total unread count unchanged |
| MessageStore.UnchangedCountSum | src/store/modules/message.ts:126-127 | updating a session's last message and time without touching its count keeps the total |
| Common.ListAt | src/store/modules/message.ts:114-116 | the stored list for a key, or the empty list the source creates when there is none (as also at message.ts lines 67-69 and aiMessage.ts lines 265-267) |
| MessageStore.FindSession | src/store/modules/message.ts:120-122 | -1 exactly when no session is with that party, else the first such index |
| MessageStore.ChatTarget | src/store/modules/message.ts:99-111 | a message is ignored iff nobody is signed in or neither side is the user; otherwise the target is the sender when the user received it, else the receiver |
| MessageStore.TimeOr | src/store/modules/message.ts:127 | a non-empty message time is kept, otherwise the current time |
| MessageStore.Touched | src/store/modules/message.ts:126-133 | last message and time are set, identity and online flag kept, and the count is overwritten only when the message carries one |
| MessageStore.InitialUnread | src/store/modules/message.ts:167-176 | a new session takes the message's own count, else 1 for an unread message, else 0 |
| MessageStore.DefaultNickname | src/store/modules/message.ts:162 | `用户` followed by the id's decimal text |
| MessageStore.DefaultNicknameInjective | src/store/modules/message.ts:162 | distinct parties get distinct default nicknames |
| MessageStore.NewSession | src/store/modules/message.ts:159-176 | the new session is online, with the fetched nickname or `用户<id>`, the avatar or "", the message as last message and the initial count |
| MessageStore.Outgoing | src/store/modules/message.ts:53-57 | the outgoing message carries sender, receiver and content; no id, read or AI flag, time or count |
| MessageStore.SessionsAfter | src/store/modules/message.ts:120-141 | the party's session, updated, is first and the others keep their order; without such a session the list is unchanged |
| MessageStore.ChatStore.constructor | src/store/modules/message.ts:9-14 | empty sessions and messages, zero total, consistent |
| MessageStore.ChatStore.UpdateTotalUnreadCount | src/store/modules/message.ts:190-196 | the total is the sum of the sessions' counts, a missing count read as 0 |
| MessageStore.ChatStore.ReceiveMessage | src/store/modules/message.ts:97-146 | an unrelated message changes nothing; otherwise it is appended to the party's list and that session is updated and moved first, or a new session is requested; with a count the total is recomputed; a consistent total stays consistent |
| MessageStore.ChatStore.CreateNewSession | src/store/modules/message.ts:153-186 | on a failed fetch nothing changes; otherwise the new session is put first and the total grows by exactly its initial count |
| MessageStore.ChatStore.SendMessageToCurrentChat | src/store/modules/message.ts:49-92 | without user or open chat nothing happens, to the store or the socket; otherwise the socket goes through `send` for the stringified message without a time (written when open, otherwise a guarded reconnect), the message is appended with the current time, the session touched and moved first, and the total unchanged |
| AIMessageStore.ValidateMessage | src/store/modules/aiMessage.ts:16-21 | the role is always user or assistant (kept when valid); text content is kept, anything else becomes the thinking placeholder |
| AIMessageStore.RepairEntry | src/store/modules/aiMessage.ts:79-85 | an array entry is validated element by element with its length kept; anything else becomes [] |
| AIMessageStore.RepairedHistory | src/store/modules/aiMessage.ts:78-86 | the same chat ids, each entry repaired |
| AIMessageStore.RepairedHistoryValid | src/store/modules/aiMessage.ts:76-86 | after repair every message of every chat has a valid role and arrays keep their length |
| AIMessageStore.UserKey | src/store/modules/aiMessage.ts:29 | the id's text for a usable id, else `anonymous` |
| AIMessageStore.FixedChatId | src/store/modules/aiMessage.ts:29-46 | the id is `user_` + the user id text (or `anonymous`) + `_fixed` |
| AIMessageStore.FixedChatIdInjective | src/store/modules/aiMessage.ts:29-46 | two users share a fixed chat id only when they are the same user, or both are anonymous |
| AIMessageStore.EnsureFixedFirst | src/store/modules/aiMessage.ts:100-102 | the fixed id is in the result; a list that has it is unchanged, otherwise it is put first |
| AIMessageStore.EnsureFixedFirstSound | src/store/modules/aiMessage.ts:159-162 | putting the fixed id in is idempotent, keeps a duplicate-free list duplicate-free, and adds at most that one id |
| AIMessageStore.LoadedChatIds | src/store/modules/aiMessage.ts:147-177 | the fixed id is always present; a 200 response with an array gives that array with the fixed id put first when missing; any other response, or a thrown request, gives exactly the fixed id |
| AIMessageStore.DefaultFetched | src/store/modules/aiMessage.ts:221-224 | empty or missing content becomes "", empty or missing role becomes assistant, anything else is kept |
| AIMessageStore.FetchedHistory | src/store/modules/aiMessage.ts:204-239 | a thrown request ends in the catch path, a non-success response gives [], and a success gives the defaulted items element by element unless a null element makes it throw |
| AIMessageStore.SetLastContent | src/store/modules/aiMessage.ts:319-322 | only the last message of the chat changes, and only its content; other chats and earlier messages are kept |
| AIMessageStore.ReplaceLastAssistant | src/store/modules/aiMessage.ts:353-356 | a trailing assistant message becomes the stream-error message; otherwise nothing changes |
| AIMessageStore.HasMarker | src/store/modules/aiMessage.ts:315 | a chunk includes the marker exactly when it occurs at some position |
| AIMessageStore.FindMarkerFrom | src/store/modules/aiMessage.ts:315 | the first occurrence of `[complete]` at or after a position, or -1 when there is none |
| AIMessageStore.StripMarker | src/store/modules/aiMessage.ts:317 | only the first marker is cut out; text without one is unchanged |
| AIMessageStore.FindMarkerFirst | src/store/modules/aiMessage.ts:315 | the search finds any occurrence with none before it |
| AIMessageStore.MarkerAtEnd | src/store/modules/aiMessage.ts:315-317 | text without a marker followed by the marker is recognised as final and contributes exactly that text |
| AIMessageStore.ReplyStream.constructor | src/store/modules/aiMessage.ts:309 | the accumulated text is empty and the source open |
| AIMessageStore.ReplyStream.OnChunk | src/store/modules/aiMessage.ts:312-340 | a final chunk gives the last message the accumulation plus the stripped chunk and drops both loading flags; any other chunk is accumulated and shown in the last message; without a history entry only the accumulation happens |
| AIMessageStore.ReplyStream.OnStreamError | src/store/modules/aiMessage.ts:343-362 | a trailing assistant message becomes the error text and both loading flags drop |
| AIMessageStore.AIChatStore.constructor | src/store/modules/aiMessage.ts:64-71 | empty history and ids, no current chat, not loading |
| AIMessageStore.AIChatStore.Init | src/store/modules/aiMessage.ts:76-109 | the history is the repaired persisted history, the fixed chat is current and in the id list, and a non-array id list becomes [fixed] |
| AIMessageStore.AIChatStore.CreateNewChat | src/store/modules/aiMessage.ts:114-132 | the fixed chat exists (its history kept if present), is current, and is in the list; it is returned |
| AIMessageStore.AIChatStore.LoadChatIds | src/store/modules/aiMessage.ts:137-178 | the stored and returned list is the loaded list for the response |
| AIMessageStore.AIChatStore.LoadChatHistory | src/store/modules/aiMessage.ts:184-204 | an empty id means the fixed chat; a cached non-empty history is returned and made current without a request; otherwise a request for that id starts and nothing changes yet |
| AIMessageStore.AIChatStore.HistoryFetched | src/store/modules/aiMessage.ts:204-240 | once the request settles, the fetched history replaces whatever the entry holds, is made current and returned; in the catch path the entry is emptied, [] is returned and the current chat stays |
| AIMessageStore.WithExchange | src/store/modules/aiMessage.ts:260-280 | the chat gains exactly two messages at its end, the user's message then the reply; its earlier messages and all other chats are kept |
| AIMessageStore.WithExchangeAfterCreate | src/store/modules/aiMessage.ts:119-121 | giving the chat an empty entry first, as `createNewChat` does, does not change the history after the exchange |
| AIMessageStore.AIChatStore.SendMessageToAI | src/store/modules/aiMessage.ts:246-389 | without a current chat the fixed one is created and made current; the chat then ends with the user message and an empty assistant message, or with the send-error text when the source cannot be opened, and that last message is returned |
| AIMessageStore.AIChatStore.AppendExchange | src/store/modules/aiMessage.ts:253-389 | both loading flags are raised, the current chat gains the user message and the assistant reply, and a fresh open stream is returned, or no stream on the error path |

## Left out

- Real sockets, timers, toasts, `localStorage`, HTTP and EventSource I/O are not modelled. Their observable effects are fields or parameters, as described above.
- Logging (`console.*`) is left out; it has no effect on state.
- `Number()` applied to text is the parameter `parseNumeric`. JavaScript numbers are modelled as integers; fractions and infinities are left out.
- `MessageStore.ChatStore.ReceiveMessage`: the user ids of a `MessageInfo` are integers, so a message whose id `Number()` turned into NaN (a missing or non-numeric `sendUserId`, src/utils/websocket.ts:68-69) is not modelled. In the source such a message with the user on the other side has target NaN (src/store/modules/message.ts:111) and starts `createNewSession(NaN)`.
- The 30-second heartbeat period and the reconnect delays are not timed: expiries are calls of `HeartbeatTick` and `ReconnectTimerFired`, and the delays are recorded in `pendingConnects`.
- `onerror` (src/utils/websocket.ts:103-105) only logs; `WebSocket.WebSocketManager.OnError` changes nothing (it has no `modifies` clause) and has no contract to list in the table.
- `getUserFixedChatId` also reads and writes `localStorage`. The model always uses the computed id `user_<id>_fixed`. A stored id saved for the same user is the same text, so the model only leaves out a stored value that a different writer put there.
- The 5-second fallback in the `finally` block of `sendMessageToAI` (src/store/modules/aiMessage.ts:393-402) is left out. It is a timer that clears both loading flags if they are still set.
- The request building in `sendMessageToAI` (the URL and query parameters) and in `loadChatIds` (the path) is left out. Only the responses' effects are modelled.
- `loadChatSessions`, `loadChatHistory` of the chat-session store, and `switchChat` are left out. They are outside the modelled core.
- The persisted state (`persist: true`) is not modelled: `Init` takes the rehydrated history and id list as inputs.
- `AIMessageStore.RawMessage`: a persisted history element that is not an object (for example `null`, on which `validateMessage` throws) is not modelled.
- `WebSocket.WebSocketManager.Connect`: a socket already in the slot is replaced without being closed, as in the source. The old socket's later events are not modelled.
- `WebSocket.WebSocketManager.Disconnect`: the socket's own close event, which the browser delivers later and which runs `OnClose`, is a separate call.
- `WebSocket.WebSocketManager.OnMessage`: the effects of the callbacks themselves are not part of the manager; which callback throws is given by the parameters `tryThrow` and `catchThrow`. The contract states the list of calls made, both passes included.
- `WebSocket.WebSocketManager.HeartbeatTick`: the ping's `userId` is the id read when the timer fires. It is a parameter, not tied to the user the socket was opened for.
- `MessageStore.ChatStore.ReceiveMessage`: an `unreadCount` of `null` is modelled as a missing count, but the source's `!== undefined` test would store a `null`. The two race cases are not modelled: two messages from a new party before the profile arrives, and a session created meanwhile by another path.
- `MessageStore.InitialUnread`: a `null` count is read as a missing one, so a `null` count on an unread message gives 1 here; the source stores the `null`, which the total then counts as 0 (src/store/modules/message.ts:172-173).
- `MessageStore.ChatStore.CreateNewSession`: the same `null` count case; the new session gets 1 where the source stores `null`.
- `AIMessageStore.AIChatStore.LoadChatIds`: the id that builds the request URL before the `await` is not modelled, because the response is a parameter; `userId` is the id `getUserFixedChatId` reads after it.
- `MessageStore.ChatStore.Consistent`: the source's `loadChatSessions` takes the total from the server, so the sum invariant holds only from the first recomputation onward.
- `AIMessageStore.AIChatStore.SendMessageToAI`: the reply is returned as a value. In the source it is the same object the stream handlers later update in place, so the caller sees the streamed text; that aliasing is not modelled.
- `AIMessageStore.DefaultFetched`: fetched `content` and `role` are modelled as optional texts. A non-text truthy value, which `||` would keep, is not represented.
