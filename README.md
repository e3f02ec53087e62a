# Littor realtime core, modelled in Dafny

Littor is a small chat application: an Express/socket.io server and a React Native client. This
project models the part of it that keeps chats consistent. The model has one Dafny module per
source file.

- **`ChatRoutes`** (`chat_routes.dfy`): the server's chat routes, from `backend/routes/chats.js`.
  - The bearer-token gate, which only checks that a token is present.
  - The seeded chat directory.
  - The per-chat message log, which POST appends to.
  - The chat list, which joins each chat with its last message.
- **`SocketServer`** (`socket_server.dfy`): the realtime broker, from `backend/server.js`.
  - The `connectedUsers` registry.
  - One outbox per socket; `send_message` and `typing` fan out into these outboxes.
- **`ChatList`** (`chat_list.dfy`): the chat-list screen, from `src/screens/ChatsScreen.js`.
  - Pure updaters: preview and unread update followed by the pinned-first, newest-first sort; pin and mute toggles; delete; the typing overlay; the case-insensitive search.
  - A `ChatsScreen` class whose handlers replace its `chats` cell.
- **`OpenChat`** (`open_chat.dfy`): the open-chat screen, from `src/screens/ChatScreen.js`.
  - Echo suppression of live messages.
  - `String.prototype.trim`.
  - Sending, split into the step before the HTTP `await` and the step after it.
  - The restartable 1000 ms typing timer, on a logical clock.
- **`ChatRow`** (`chat_row.dfy`): a row of the chat list, from `src/components/SwipeableChat.js`.
  - The age buckets of the time label.
  - The unread badge and its "99+" cap.
  - The footer text.
- **`AuthRoutes`** (`auth_routes.dfy`): the account routes, from `backend/routes/auth.js`.
  - A user table with required-field checks and username uniqueness.
  - The linear username search.
- **`Theme`** (`theme.dfy`): the theme-mode state machine, from `src/context/ThemeContext.js`.
- **`Common` / `ChatTypes`** (`common.dfy`): the optional value, JavaScript truthiness of a string, and the message and chat records shared by server and client.

How the system is represented:

- Every handler is one atomic step, applied in arrival order.
- A socket emit is an append to a sequence of emitted events.
- Clocks, random draws, the device storage, bcrypt and JSON Web Tokens become parameters.
- Instants are integers in milliseconds.
- Message and user ids are clock readings (`nat`). They are not assumed to be unique.

Three behaviours of the code are easy to miss, and the model states them:

- **Disconnect:** a disconnect deletes the user's registry key even when the socket has been superseded by a newer connection of the same user (`SocketServer.Broker.Disconnect`, `SocketServer.StaleDisconnectEvictsNewer`).
- **Superseded sockets:** a superseded socket that is still open keeps receiving every `io.emit` (`SocketServer.SupersededSocketStillReceives`).
- **Unread count:** the chat-list handler raises the unread count for every `new_message`, the user's own messages included (`ChatList.WithPreview`, `ChatList.UpdatePreview`).

## Model

| member | source | states |
|---|---|---|
| ChatRoutes.SpaceIndex | backend/routes/chats.js:8 | the index where `split(' ')` cuts: no space before it, and a space at it unless it is the end |
| ChatRoutes.BearerHeaderAccepted | backend/routes/chats.js:7-11 | any header "Bearer t" with a non-empty, space-free t passes the gate with token t; the token is never validated |
| ChatRoutes.Token | backend/routes/chats.js:8 | absent exactly when the header has no space; otherwise the space-free text right after the first space, up to the next space or the end |
| ChatRoutes.Authorized | backend/routes/chats.js:7-11 | a missing header never passes, and a passing header contains a space |
| ChatRoutes.AuthorizedIff | backend/routes/chats.js:7-11 | the gate passes exactly when the header has a space and the character after the first space exists and is not a space (so "Bearer " and a missing header give 401) |
| ChatRoutes.SenderOf | backend/routes/chats.js:38 | the sender is the `user-id` header when it is non-empty, and '1' otherwise |
| ChatRoutes.NewMessage | backend/routes/chats.js:38-47 | the stored message: id from the clock, the path's chat id, the text, a non-empty sender (header or '1'), the given reply, the timestamp, and no read flag |
| ChatRoutes.Appended | backend/routes/chats.js:49-50 | appending creates the chat's log if needed, adds the message at its tail, and leaves every other chat's log as it was |
| ChatRoutes.ChatList | backend/routes/chats.js:15-25 | one entry per directory chat, in order; an entry's last message text and time are those of the last element of its log, and both are absent exactly when the log is empty |
| ChatRoutes.PostShowsInChatList | backend/routes/chats.js:15-50 | after a post to chat c, every list entry for c shows that post as its last message, and every other entry is unchanged |
| ChatRoutes.FirstPostCreatesLog | backend/routes/chats.js:49-50 | a post to a chat id with no log (even one not in the directory) creates a log holding exactly that message; the other logs are kept |
| ChatRoutes.ChatStore.constructor | backend/routes/chats.js:55-58 | start-up state: chats '1' (group) and '2' (private), and no messages |
| ChatRoutes.OneEntryPerChat | backend/routes/chats.js:4-16 | with a directory keyed by id (a Map), each chat has exactly one chat-list entry |
| ChatRoutes.ChatStore.GetChats | backend/routes/chats.js:15-28 | 401 exactly without a token; otherwise the chat-list join of the current state, with exactly one entry per directory chat |
| ChatRoutes.ChatStore.GetMessages | backend/routes/chats.js:30-33 | 401 exactly without a token; otherwise the chat's log in append order, or empty when it has none |
| ChatRoutes.ChatStore.PostMessage | backend/routes/chats.js:35-53 | 401 exactly without a token, with the logs unchanged; otherwise the returned message is the stored one (id from the clock, path chat id, sender header or '1', given replyTo), appended at the tail of its chat's log; the directory never changes |
| SocketServer.Fanout | backend/server.js:30-31 | the event is appended to the outbox of every target socket, and every other outbox is untouched |
| SocketServer.Broker.constructor | backend/server.js:20 | empty registry, no sockets |
| SocketServer.Broker.Connect | backend/server.js:22-28 | a truthy handshake userId maps to the new socket, replacing any earlier mapping; without one the registry is unchanged |
| SocketServer.Broker.Disconnect | backend/server.js:33-37 | the socket closes, and its user's key is deleted unconditionally when its handshake had a userId |
| SocketServer.Broker.SendMessage | backend/server.js:30 | `new_message` with the identical payload reaches every open socket, the sender included; the registry is unchanged |
| SocketServer.Broker.Typing | backend/server.js:31 | `user_typing` with the sender's handshake userId reaches every open socket except the sender; the registry is unchanged |
| SocketServer.StaleDisconnectEvictsNewer | backend/server.js:23-37 | reconnect, then disconnect of the old socket: the new socket is open, but its user is no longer registered |
| SocketServer.SupersededSocketStillReceives | backend/server.js:26-30 | after a reconnect, a `send_message` still reaches the superseded socket as well as the new one |
| ChatList.UpdateWhere | src/screens/ChatsScreen.js:63-67 | same length; each chat with the id is transformed, every other chat is kept in place |
| ChatList.UpdateWhereKeepsOthers | src/screens/ChatsScreen.js:63-67 | when the update keeps ids, every chat with another id occurs as often as before |
| ChatList.TogglePin | src/screens/ChatsScreen.js:76-80 | `isPinned` is flipped on the chats with that id only; the order and every other field are kept |
| ChatList.ToggleMute | src/screens/ChatsScreen.js:82-86 | `isMuted` is flipped on the chats with that id only; the order and every other field are kept |
| ChatList.TogglePinTwice | src/screens/ChatsScreen.js:76-80 | pinning twice gives back the original list |
| ChatList.ToggleMuteTwice | src/screens/ChatsScreen.js:82-86 | muting twice gives back the original list |
| ChatList.SetTyping | src/screens/ChatsScreen.js:35-39 | `isTyping` is set on the matching chats only; the order and every other field are kept |
| ChatList.Filter | src/screens/ChatsScreen.js:88-94 | keeps exactly the chats the test accepts, each as often as in the input |
| ChatList.FilterConcat | src/screens/ChatsScreen.js:88-94 | filtering distributes over concatenation, so the kept chats stay in their original relative order |
| ChatList.FilterKeepsAll | src/screens/ChatsScreen.js:92-94 | a test that accepts every chat gives back the list unchanged |
| ChatList.FilterSameTest | src/screens/ChatsScreen.js:92-94 | two tests that agree give the same list |
| ChatList.Remove | src/screens/ChatsScreen.js:88-90 | the chats with that id are gone, and every other chat occurs as often as before |
| ChatList.RemoveConcat | src/screens/ChatsScreen.js:88-90 | deleting keeps the remaining chats in their original relative order |
| ChatList.Lower | src/screens/ChatsScreen.js:93 | lower-casing keeps the length |
| ChatList.LowerTwice | src/screens/ChatsScreen.js:93 | lower-casing twice is lower-casing once |
| ChatList.ContainsIff | src/screens/ChatsScreen.js:93 | `includes` holds exactly when the query occurs at some index of the name |
| ChatList.Search | src/screens/ChatsScreen.js:92-94 | keeps exactly the chats whose lower-cased name contains the lower-cased query, each as often as in the input |
| ChatList.SearchEmptyQuery | src/screens/ChatsScreen.js:92-94 | the empty query keeps the whole list, in order |
| ChatList.SearchIgnoresQueryCase | src/screens/ChatsScreen.js:92-94 | the result does not depend on the case of the query |
| ChatList.Precedes | src/screens/ChatsScreen.js:68-72 | the comparator puts pinned before unpinned and never the reverse; with a time absent (NaN) only the pinned test decides; chats of the same pin flag and time tie |
| ChatList.PrecedesAsymmetric | src/screens/ChatsScreen.js:68-72 | no two chats each go strictly before the other |
| ChatList.Insert | src/screens/ChatsScreen.js:68-72 | insertion adds exactly the one chat to the multiset of the list |
| ChatList.SortChats | src/screens/ChatsScreen.js:68-72 | the sort is a permutation of its input |
| ChatList.InsertOrdered | src/screens/ChatsScreen.js:68-72 | inserting a timed chat into an ordered, timed list keeps it ordered |
| ChatList.SortOrdered | src/screens/ChatsScreen.js:68-72 | with every time present, the sorted list has no chat strictly preceding an earlier one under the comparator |
| ChatList.InsertStable | src/screens/ChatsScreen.js:68-72 | insertion puts the new chat ahead of the chats it ties with and keeps their order |
| ChatList.SortStable | src/screens/ChatsScreen.js:68-72 | for any set of mutually tying chats, the sort keeps them in input order |
| ChatList.SortKeepsClassOrder | src/screens/ChatsScreen.js:68-72 | chats with the same pinned flag and the same time come out in their input order |
| ChatList.WithPreview | src/screens/ChatsScreen.js:65 | last message and time become the message's, the unread count goes up by one whoever sent it, and every other field is kept |
| ChatList.UpdatePreview | src/screens/ChatsScreen.js:61-74 | same length; the message's chat carries its text, its time and one more unread (whoever sent it); every other chat occurs as often as before, field for field |
| ChatList.PreviewUnknownChat | src/screens/ChatsScreen.js:61-74 | a message for no listed chat only permutes the list |
| ChatList.PreviewOrdered | src/screens/ChatsScreen.js:68-72 | after the update, pinned chats precede unpinned ones, and within each group newer last messages come first (when the other chats have times) |
| ChatList.SortFixture | src/screens/ChatsScreen.js:68-72 | A (pinned, 5), B (10), C (pinned, 1) sort to A, C, B |
| ChatList.FromEntry | src/screens/ChatsScreen.js:51-55 | a loaded chat keeps the server entry's id, name, kind, last message and time, takes the drawn unread count and online flag, and has no flag set |
| ChatList.LoadedPreviewIsLastMessage | src/screens/ChatsScreen.js:51-55 | a freshly loaded chat shows the text and time of the last message of its server log, and neither for an empty log |
| ChatList.ChatsScreen.constructor | src/screens/ChatsScreen.js:21-22 | empty list and empty query |
| ChatList.ChatsScreen.LoadChats | src/screens/ChatsScreen.js:46-59 | the list becomes the server entries in order, with the drawn unread counts (0 to 4) and online flags, and no flag set |
| ChatList.ChatsScreen.OnNewMessage | src/screens/ChatsScreen.js:31-33 | the list becomes its preview update |
| ChatList.ChatsScreen.OnUserTyping | src/screens/ChatsScreen.js:35-39 | the list becomes its typing overlay |
| ChatList.ChatsScreen.HandlePin | src/screens/ChatsScreen.js:76-80 | the list becomes its pin toggle |
| ChatList.ChatsScreen.HandleMute | src/screens/ChatsScreen.js:82-86 | the list becomes its mute toggle |
| ChatList.ChatsScreen.HandleDelete | src/screens/ChatsScreen.js:88-90 | the list loses the chats with that id |
| ChatList.ChatsScreen.SetSearchQuery | src/screens/ChatsScreen.js:113 | the query changes, the list does not |
| ChatList.ChatsScreen.FilteredChats | src/screens/ChatsScreen.js:92-94 | what is shown is exactly the listed chats matching the current query |
| OpenChat.LeadingSpaces | src/screens/ChatScreen.js:79 | the white-space run that starts the input, ending at a non-space or at the end |
| OpenChat.TrailingSpaces | src/screens/ChatScreen.js:79 | the white-space run that ends the input, preceded by a non-space or by the start |
| OpenChat.Trim | src/screens/ChatScreen.js:79-81 | the result is a slice of the input with only white space outside it, has no white space at either end, and is empty exactly when the input is all white space |
| OpenChat.TrimTwice | src/screens/ChatScreen.js:79-81 | trimming twice is trimming once |
| OpenChat.Receive | src/screens/ChatScreen.js:35-39 | the list grows by the message at its tail exactly when it is for this chat and from someone else, and is unchanged otherwise |
| OpenChat.OwnCopy | src/screens/ChatScreen.js:103 | the server's answer with the local sender and unread, other fields kept; the echo filter rejects it in every chat |
| OpenChat.EchoLeavesOneCopy | src/screens/ChatScreen.js:103-107 | after a send, the broker's echo of the own copy is dropped, so the list holds that copy exactly once more than before |
| OpenChat.OwnMessagesFromElsewhereDropped | src/screens/ChatScreen.js:36 | a live message with the local sender id is never shown, even one sent from another session |
| OpenChat.Snapshot | src/screens/ChatScreen.js:86 | the reply is the target's id and text, or nothing without a target |
| OpenChat.Tick | src/screens/ChatScreen.js:73-75 | a due timer fires once, emitting "stopped typing" and leaving none pending; otherwise nothing changes; afterwards nothing is due |
| OpenChat.Keystroke | src/screens/ChatScreen.js:64-76 | a keystroke first lets a timer already due emit its "stopped typing", then emits "typing" and sets the stop 1000 later, replacing a timer not yet due |
| OpenChat.ReplayBalanced | src/screens/ChatScreen.js:64-76 | under any run of keystrokes and ticks, the "stopped" emits plus the pending timer never exceed the "typing" emits, so at most one stop is pending |
| OpenChat.IdleTicksSilent | src/screens/ChatScreen.js:73-75 | with no timer pending, ticks emit nothing |
| OpenChat.PendingStopFiresOnce | src/screens/ChatScreen.js:69-75 | a pending timer emits exactly one "stopped typing", at the first tick that reaches its deadline, and nothing if none does |
| OpenChat.LastKeystrokeThenQuiet | src/screens/ChatScreen.js:64-76 | after the last keystroke at k (and the stop it lets fire, if one was due), exactly one "stopped typing" follows, at a tick at or after k + 1000, and none before |
| OpenChat.KeystrokeRestartsTimer | src/screens/ChatScreen.js:69-75 | keystrokes at 0 and 900: nothing at 1000, and the stop at 1900 |
| OpenChat.LateKeystrokeKeepsEarlierStop | src/screens/ChatScreen.js:69-75 | keystrokes at 0 and 5000 and a tick at 6000 emit typing, stopped, typing, stopped |
| OpenChat.ChatScreen.constructor | src/screens/ChatScreen.js:25-30 | empty list and input, no reply target, no timer |
| OpenChat.ChatScreen.LoadMessages | src/screens/ChatScreen.js:53-62 | the list becomes the fetched log in order, each message with its drawn read flag |
| OpenChat.ChatScreen.OnNewMessage | src/screens/ChatScreen.js:35-39 | the list becomes its echo-suppressed receive of the message |
| OpenChat.ChatScreen.OnUserTyping | src/screens/ChatScreen.js:41-45 | the indicator takes the payload's value for this chat, and is unchanged for other chats |
| OpenChat.ChatScreen.CancelReply | src/screens/ChatScreen.js:171 | the reply target is cleared |
| OpenChat.ChatScreen.HandleTyping | src/screens/ChatScreen.js:64-76 | the input is stored; a stop already due is emitted first; then "typing" is emitted and the pending stop is replaced by one due 1000 later; the emits stay balanced |
| OpenChat.ChatScreen.ClockTick | src/screens/ChatScreen.js:73-75 | a due timer fires once and emits "stopped typing"; otherwise nothing changes |
| OpenChat.ChatScreen.BeginSend | src/screens/ChatScreen.js:78-89 | blank input sends nothing and changes nothing; otherwise the trimmed, non-empty text is posted with the reply snapshot and the user id, and the input and reply target are cleared |
| OpenChat.ChatScreen.CompleteSend | src/screens/ChatScreen.js:91-110 | on success exactly one own copy (local sender, unread) is appended and emitted as `send_message`; on failure the list and the emits are unchanged |
| ChatRow.WeekdayIndex | src/components/SwipeableChat.js:14 | the weekday index is always inside the seven-name table |
| ChatRow.NextDayNextWeekday | src/components/SwipeableChat.js:14 | one day later gives the next weekday, cyclically |
| ChatRow.FormatTime | src/components/SwipeableChat.js:7-16 | no timestamp gives no label; otherwise exactly one bucket applies: under a day old the time of day, under a week the weekday name, else the date |
| ChatRow.OlderIsCoarser | src/components/SwipeableChat.js:11-15 | an older message never gets a finer label than a newer one |
| ChatRow.SundayLabel | src/components/SwipeableChat.js:14 | weekday index 0 is labelled "Вс" |
| ChatRow.NatToString | src/components/SwipeableChat.js:67 | a count prints as decimal digits, with no leading zero |
| ChatRow.ParsePrinted | src/components/SwipeableChat.js:67 | the printed count reads back as the count |
| ChatRow.Badge | src/components/SwipeableChat.js:65-67 | shown exactly when the count is positive; "99+" exactly above 99, the count's digits otherwise |
| ChatRow.BadgeFits | src/components/SwipeableChat.js:67 | the badge label is at most three characters |
| ChatRow.FooterText | src/components/SwipeableChat.js:58-63 | "печатает..." while typing; otherwise the last message, or "Нет сообщений" when it is absent or empty |
| ChatRow.Row | src/components/SwipeableChat.js:39-69 | the time shows exactly when the chat has one, the badge exactly when there are unread messages, and the pin bar, online dot and muted icon follow their flags |
| AuthRoutes.UserTable.constructor | backend/routes/auth.js:6 | the table starts empty |
| AuthRoutes.UserTable.FindByName | backend/routes/auth.js:17 | finds an account with that username exactly when one exists |
| AuthRoutes.UserTable.Register | backend/routes/auth.js:9-37 | 400 with nothing changed for a missing or empty username or password, or a taken username; otherwise the account is stored under the clock id with the password's hash, a colliding id replacing its account, and usernames stay unique |
| AuthRoutes.UserTable.Login | backend/routes/auth.js:39-53 | never changes the table; 401 for an unknown username or a failed hash check; 500 when the account exists but no password was sent; on success the matching account's id and username with its token |
| AuthRoutes.RegisterThenLogin | backend/routes/auth.js:9-53 | after a successful register, logging in with the same credentials returns the same account (given a hash check that accepts a password against its own hash) |
| Theme.DarkFor | src/context/ThemeContext.js:38-40 | "dark" gives dark, "light" gives light, "auto" follows the system, and any other mode keeps the current palette |
| Theme.DarkForIdempotent | src/context/ThemeContext.js:34-41 | choosing a mode twice gives the palette that choosing it once does |
| Theme.DarkForKnownModes | src/context/ThemeContext.js:38-40 | for the three known modes the palette does not depend on the previous one |
| Theme.ThemeProvider.constructor | src/context/ThemeContext.js:9-11 | mode "auto" and the system scheme's palette |
| Theme.ThemeProvider.LoadPreference | src/context/ThemeContext.js:21-32 | a saved non-empty mode is adopted, and "dark" or "light" fix the palette; nothing saved changes nothing; in "auto" the palette follows the system |
| Theme.ThemeProvider.SystemSchemeChanged | src/context/ThemeContext.js:17-19 | in "auto" the palette follows the new scheme; in other modes it stays |
| Theme.ThemeProvider.ToggleTheme | src/context/ThemeContext.js:34-41 | the mode is adopted; when the save succeeds it is stored and the palette follows it; when the save fails the storage and the palette are kept, except that "auto" still follows the system |
| Theme.ThemeProvider.Theme | src/context/ThemeContext.js:43 | the dark palette exactly when `isDark` |
| Theme.ToggleTwice | src/context/ThemeContext.js:34-41 | toggling to the same mode twice, both saves succeeding, leaves the state that one toggle leaves |
| Theme.FailedSaveOfDark | src/context/ThemeContext.js:34-41 | a failed save of "dark" leaves the system palette in dark mode, and a restart returns to "auto" |
| Theme.RestartRestores | src/context/ThemeContext.js:21-41 | a mode chosen with the toggle is restored with the same palette by a new provider that loads the saved preference |

## Left out

- Transports are not modelled: Express routing, socket.io and the axios calls. Each handler is a method, and each emit is an append to an outbox or to an emit log.
- bcrypt and JSON Web Tokens are uninterpreted functions (`hash`, `compare`, `sign`). Token verification is not modelled; the server never does it.
- Clocks, `Math.random`, time zones and device storage are not modelled; they become parameters.
- A time zone is a fixed offset, so daylight-saving changes are not captured.
- Locale formatting is not modelled. `toLocaleTimeString` and `toLocaleDateString` are not formatted; those labels carry the instant.
- The timestamps are abstract. The server sends ISO strings (`createdAt`) and the client parses them with `new Date`; the model uses integers.
- Ids are numbers rather than the strings the clock's reading prints to.
- Async interleaving is not modelled. Each handler is atomic and applied in arrival order.
- The typing timer is a deadline on a logical clock that the `ClockTick` handler advances.
- `sendMessage` is split into `BeginSend` and `CompleteSend`. The model does not capture other handlers running between the two steps.
- ChatList.SortChats: models `Array.prototype.sort` as a stable insertion sort. When a last-message time is absent, the comparator yields NaN, which the model reads as "equal". The resulting order then depends on the engine, and ordering is proved only when every time is present.
- ChatList.LowerChar: lower-cases only Latin A-Z and Cyrillic U+0400..U+042F. Other scripts, and characters whose lower case is longer than one character, are left as they are.
- OpenChat.IsSpace: covers the ECMAScript white-space and line-terminator characters as code points. Surrogate pairs and other code points above U+FFFF are not white space, as in JavaScript.
- ChatRoutes.ChatStore.PostMessage: the body's `text` and `replyTo` are assumed well-typed. A falsy `replyTo` becomes null in the source; the model only has present and absent.
- AuthRoutes.UserTable.Register: only the 400 paths are modelled. A throwing `bcrypt.hash` (500) is not, because the model's password is always a string.
- AuthRoutes.UserTable.Login: a username that is not a string is read as absent, so it matches no account.
- The chat name's first letter on the avatar is not modelled; it fails on an empty name. That is rendering, like all JSX, styles and navigation.
- The text input's 1000-character limit is not modelled; the input widget enforces it.
- Reply selection has no setter, because no code path sets a reply target; only clearing is modelled.
- The login/registration screen, the settings screen, the message bubble, the app shell with its session persistence, and the socket client wrapper are not part of this model.
