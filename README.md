# Presence-aware chat delivery, modelled in Dafny

This project models the core of a two-party chat application. On the server (`server/server.js`) it covers:

- the authentication gates for REST requests and socket handshakes;
- the presence registry (`onlineUsers`), which maps each user to their latest socket;
- the socket handlers that store messages, push them to online recipients, forward typing signals and announce presence;
- the REST decisions over the users, friends and messages tables: register, login, friend add and list, the guarded history, the unread count, the stats and the `isOnline` decoration.

On the client (`src/stores/chat.js`) it covers the chat store: the push handlers with their self-echo filter, the optimistic send, presence updates, typing emits, the load actions and socket teardown.

The tables are sequences. Queries are filters over them. Each socket handler and each database callback runs to completion as one step. Emitted events are appended to an outbox (`outbox` on the server, `emitted` on the client). Hashing, token signing and verification, uuid generation and the clock are not modelled. Their results come in as parameters instead: a `verify` oracle, `compare` and `sign` functions, fresh ids and abstract timestamps. Whether a database call succeeds is a boolean input wherever the code branches on its error.

Modules:

- `Types`: rows, ids, `Option`, `Result`.
- `Seqs`: filter, uniqueness.
- `Auth`: header splitting, bearer token, the 401/403 gate, the handshake gate.
- `Accounts`: register checks, login.
- `Queries`: the read-only routes.
- `Server`: class `ChatServer`, with presence, the socket handlers, and the register and friend inserts.
- `ChatStore`: class `ChatStore`.

Properties proved:

- A connection replaces any earlier presence entry of the same user, so the latest connection wins. It broadcasts `userOnline` to every previously connected socket, so never to itself.
- A refused handshake changes nothing.
- Disconnect deletes the presence entry by user id. If a user reconnects and the older socket then closes, the user is reported offline although the newer socket is still live (`StaleDisconnectDropsPresence`).
- A message is pushed only after it is stored, only to the recipient's socket, and only when the recipient is online. A failed insert emits nothing.
- Every `isOnline` the server reports is membership in the presence map.
- Friend links are directional.
- History is refused with 404 unless the caller owns a link to the other user. Otherwise it returns exactly the messages between the two, sorted by timestamp.
- The unread count never exceeds the number of messages received. With unique message ids it *equals* that number for any two different users, so replying never lowers it. For a conversation with oneself it is always 0.
- On the client, a push of the user's own message is dropped. The optimistic entry keeps its local `local-<time>` id for good, and local ids at different times differ.
- `updateUserStatus` never grows the list. The store never inserts into `onlineUsers`, so presence pushes have no effect.

The unread count's subquery (server/server.js:366-368) excludes ids of messages the viewer sent to the friend from the messages the friend sent to the viewer. Those are always different messages, so nothing is ever excluded: `UnreadIsReceivedCount` proves the count is just the number of messages received from that friend.

## Model

| member | source | states |
|---|---|---|
| `Auth.Split` | server/server.js:67 | `split(' ')` yields at least one piece and no piece contains a space |
| `Auth.JoinSplit` | server/server.js:67 | splitting loses nothing: gluing the pieces back with spaces gives the header |
| `Auth.SplitJoin` | server/server.js:67 | splitting a space-joined list of space-free words gives the words back |
| `Auth.SplitPrefix` | server/server.js:67 | a space-free prefix becomes the start of the first piece |
| `Auth.BearerToken` | server/server.js:66-67 | a token exists only for a present, non-empty header; it is the non-empty second word |
| `Auth.SplitAtBoundary` | server/server.js:67 | text that is empty or starts with a space splits with an empty first piece |
| `Auth.BearerTokenOfHeader` | server/server.js:66-67 | for a header `<scheme> <token><tail>` with space-free scheme and token and a tail that is empty or starts with a space, the token read is exactly `token` |
| `Auth.HeaderWithoutSpaceHasNoToken` | server/server.js:67-71 | a header without a space has no second word, so it yields no token (401) |
| `Auth.AuthenticateRequest` | server/server.js:65-80 | no token gives 401; a token the oracle rejects gives 403; otherwise the route runs with the decoded claims |
| `Auth.BearerHeaderGrants` | server/server.js:65-80 | `Bearer <t>` with a verifiable `t` reaches the route with t's claims |
| `Auth.AuthenticateHandshake` | server/server.js:83-97 | a handshake is accepted iff the token is present, non-empty and verifies; the socket gets the claims' user id |
| `Seqs.Lookup` | server/server.js:219 | `db.get` on a keyed query returns a row with that key, or nothing exactly when no row has it |
| `Accounts.RegisterCheck` | server/server.js:167-181 | a missing field gives 400; a failed lookup gives 500; a taken email gives 400; the insert is attempted iff all fields are present and the email is new |
| `Seqs.UniqueKeysAppend` | server/server.js:188-190 | inserting a row whose key is new keeps a PRIMARY KEY or UNIQUE column unique |
| `Accounts.RegisterSameEmailTwice` | server/server.js:174-181 | once an email is in the table, registering it again is refused as a duplicate |
| `Accounts.Login` | server/server.js:211-239 | missing fields give 400; a failed lookup gives 500; success only for a user with that email whose hash matches the password, with that user's profile and token |
| `Accounts.LoginFailureIsUniform` | server/server.js:224-231 | after a successful lookup every failure, unknown email or wrong password alike, is the same 400 |
| `Seqs.LookupUnique` | server/server.js:219 | with unique keys the lookup finds exactly the row holding the key |
| `Seqs.LookupAppend` | server/server.js:219 | a row appended with a key no earlier row has is what the lookup of that key finds |
| `Accounts.LoginFindsTheUser` | server/server.js:219-237 | with unique emails, a user's email and a password matching its hash log in as that very user |
| `Accounts.LoginAfterRegister` | server/server.js:211-239 | round trip: a freshly registered user logs in with its password and gets its own identity back |
| `Queries.UsersList` | server/server.js:300-313 | exactly the users other than the caller, each with `isOnline` equal to presence-map membership, and each listed once when ids are unique (the primary key); 500 exactly on error |
| `Seqs.FilterUniqueKeys` | server/server.js:301 | selecting rows of a table with a unique key column yields rows with distinct keys |
| `Queries.FriendRows` | server/server.js:318-331 | every row is a user the caller links to, with `isOnline` equal to membership; every such linked user appears |
| `Queries.FriendsList` | server/server.js:317-334 | the friends route: every row is the view of a stored user the caller links to, with `isOnline` as membership; every such user appears; 500 exactly on error |
| `Queries.FriendLinkIsDirectional` | server/server.js:341-343 | a new link a -> b extends only a's friend list (by b's row); every other list, b's included, is unchanged |
| `Queries.InsertByTime` | server/server.js:416 | the result holds the input plus exactly one copy of the new message |
| `Queries.InsertByTimeSorted` | server/server.js:416 | insertion into a time-sorted list keeps it sorted |
| `Queries.SortByTime` | server/server.js:416 | the result is sorted by timestamp and is a permutation of the input |
| `Queries.History` | server/server.js:402-425 | 404 unless the lookup succeeds and a caller -> other link exists; else 500 on a list error; else exactly the messages between the two, sorted ascending by timestamp (the answer is `Ok` exactly in this last case) |
| `Queries.HistoryShowsStoredMessage` | server/server.js:412-417 | round trip: a stored message appears in the recipient's history with the sender once the recipient links to the sender |
| `Queries.Unread` | server/server.js:366-368 | the unread count never exceeds the number of friend -> viewer messages |
| `Queries.UnreadIsReceivedCount` | server/server.js:366-368 | with unique message ids and two different users the unread count equals the received count |
| `Queries.UnreadWithSelfIsZero` | server/server.js:366-368 | the unread count of a conversation with oneself is 0 |
| `Queries.UserStats` | server/server.js:276-297 | 500 if either count fails; otherwise the caller's owned-link count and the count of messages it sent or received, bounded by table sizes |
| `Queries.MessageCountAfterStore` | server/server.js:286 | storing a message raises the message count of its sender and recipient by one and nobody else's |
| `Queries.FriendCountAfterAdd` | server/server.js:280 | adding a link raises only its owner's friend count, by one |
| `Queries.FriendIds` | server/server.js:369-375 | the ids listed are exactly those the viewer owns a link to |
| `Queries.Dedup` | server/server.js:376 | grouping by friend id keeps each id once and loses none |
| `Queries.Summaries` | server/server.js:358-396 | never more rows than ids (one row per distinct id is `SummariesDistinct`) |
| `Queries.SummariesRows` | server/server.js:370-395 | every row is built from the joined user of one of the ids, with its presence flag and unread count |
| `Queries.SummariesDistinct` | server/server.js:376 | distinct friend ids give rows about distinct users |
| `Queries.SummariesComplete` | server/server.js:370 | every friend id that names an existing user gets a row |
| `Queries.Conversations` | server/server.js:355-400 | one row per distinct linked friend that is a stored user (the inner join), carrying that user's id, name and email, `isOnline` as membership and the unread count; every such friend appears; 500 exactly on error |
| `Server.ChatServer.constructor` | server/server.js:101-102 | empty tables, empty presence map, nothing emitted |
| `Server.ChatServer.Connect` | server/server.js:99-110 | a refused handshake changes nothing; otherwise the latest socket replaces the user's presence entry and `userOnline` goes to every previously connected socket |
| `Server.ChatServer.Disconnect` | server/server.js:112-116 | the entry of the socket's user is deleted by user id, unconditionally, and `userOffline` goes to all remaining sockets |
| `Server.ChatServer.SendMessage` | server/server.js:118-151 | exactly one row with the authenticated sender and the payload's content and recipient is stored iff the insert succeeds; then exactly one `message` push goes to the recipient's socket iff the recipient is online; otherwise nothing is emitted |
| `Server.ChatServer.Typing` | server/server.js:153-161 | forwarded to an online recipient only, tagged with the sender, flag unchanged; tables untouched |
| `Server.ChatServer.Register` | server/server.js:165-209 | a rejected check or failed insert changes nothing; otherwise exactly the new user (no bio) is appended and its session returned |
| `Server.ChatServer.AddFriend` | server/server.js:337-352 | exactly the one link caller -> userId is appended iff the insert succeeds; otherwise 500 and no change |
| `Server.StaleDisconnectDropsPresence` | server/server.js:105-116 | after a reconnect, the older socket's disconnect leaves the newer socket live but the user reported offline |
| `Server.OfflineMessageIsStored` | server/server.js:118-151 | a message to an offline user is stored, not pushed, and shows in the recipient's history once the recipient links to the sender |
| `Server.OnlineMessageIsPushed` | server/server.js:118-151 | a message to an online user is pushed to that user's socket with the sender's id |
| `ChatStore.Decimal` | src/stores/chat.js:65 | the numeral of a clock reading is non-empty and has at least two digits from 10 on |
| `ChatStore.DecimalInjective` | src/stores/chat.js:65 | different clock readings print differently |
| `ChatStore.LocalIdsDistinct` | src/stores/chat.js:65 | optimistic messages sent at different instants get different local ids |
| `ChatStore.FirstIndex` | src/stores/chat.js:102 | the first position holding the id, or none iff no entry has it |
| `ChatStore.FindIndex` | src/stores/chat.js:102 | the search loop returns the first matching position, or -1 iff there is none |
| `ChatStore.WithStatus` | src/stores/chat.js:101-106 | only the first matching entry gets the new flag; an unknown id leaves the list; the length never changes |
| `ChatStore.ChatStore.constructor` | src/stores/chat.js:8-13 | no socket, empty lists, no active conversation, not loading |
| `ChatStore.ChatStore.IsConnected` | src/stores/chat.js:16 | false whenever there is no socket; true only for a connected socket |
| `ChatStore.ChatStore.ConnectSocket` | src/stores/chat.js:18-21 | a new, not yet connected socket replaces the field; nothing else changes |
| `ChatStore.ChatStore.TransportConnected` | src/stores/chat.js:23-25 | the library marks the socket connected |
| `ChatStore.ChatStore.TransportClosed` | src/stores/chat.js:27-29 | the library marks the socket disconnected |
| `ChatStore.ChatStore.DisconnectSocket` | src/stores/chat.js:50-55 | afterwards there is no socket and the store is not connected; a second call does nothing more |
| `ChatStore.ChatStore.AddMessage` | src/stores/chat.js:57-59 | appends exactly one entry at the end; earlier entries keep position and value |
| `ChatStore.ChatStore.OnMessage` | src/stores/chat.js:31-35 | a pushed record is appended iff its sender is not the local user |
| `ChatStore.ChatStore.SendMessage` | src/stores/chat.js:61-74 | not connected: nothing changes and nothing is emitted; connected: one entry with id `local-<time>` and the local sender is appended and exactly `{content, recipientId}` is emitted |
| `ChatStore.ChatStore.LoadConversations` | src/stores/chat.js:76-86 | the list is replaced on success and kept on failure; loading ends false |
| `ChatStore.ChatStore.LoadMessages` | src/stores/chat.js:88-99 | on success the messages are replaced and the conversation made active; on failure both are kept; loading ends false |
| `ChatStore.ChatStore.UpdateUserStatus` | src/stores/chat.js:101-106 | the list becomes `WithStatus` of the old one: first match only, never grows |
| `ChatStore.ChatStore.OnUserOnline` | src/stores/chat.js:37-39 | the `userOnline` push sets the first matching entry online |
| `ChatStore.ChatStore.OnUserOffline` | src/stores/chat.js:41-43 | the `userOffline` push sets the first matching entry offline |
| `ChatStore.ChatStore.StartTyping` | src/stores/chat.js:108-112 | emits `typing` with `isTyping` true iff connected |
| `ChatStore.ChatStore.StopTyping` | src/stores/chat.js:114-118 | emits `typing` with `isTyping` false iff connected |
| `ChatStore.PresencePushesOnFreshStore` | src/stores/chat.js:12 | presence pushes on a freshly constructed store leave `onlineUsers` empty |
| `ChatStore.SelfEchoIsDropped` | src/stores/chat.js:31-74 | a connected sender's own message appears once, under its local id, even when the server's record is pushed back |

## Left out

- Transport and process plumbing are not modelled: Express, socket.io, the HTTP server, CORS, `server.listen`, dotenv and console logging. Handlers are atomic steps and emissions are outbox entries.
- The timing of asynchronous callbacks and the event loop is not modelled. The `sendMessage` insert callback reads the presence map in the same step as the insert, so a connect or disconnect that lands between the two is not represented.
- bcrypt, JWT and uuid are oracles or parameters: hashing, comparison, token signing and verification (including the 7-day expiry), and id generation. The server secret is not modelled.
- The clock is abstract. The stored row's time (`CURRENT_TIMESTAMP`) and the pushed record's time (`new Date().toISOString()`) are separate natural numbers, with no string format.
- ChatStore.ChatStore.SendMessage: takes one clock reading `now` for both the local id (`Date.now()`, src/stores/chat.js:65) and the timestamp (`new Date()`, src/stores/chat.js:69), which the client reads separately; the two readings may differ by the time between them.
- The profile routes (GET/PUT `/api/auth/profile`, server/server.js:246-274) are not modelled; they are outside the delivery and presence core.
- The `lastMessage` column of the conversation list is not modelled. SQLite picks its row arbitrarily under `GROUP BY`.
- Queries.Conversations: does not state the row order, because `ORDER BY m.timestamp DESC` sorts by that arbitrarily chosen row; the model keeps first-link order.
- Queries.FriendsList: states which rows appear, not their order or how often a repeated link repeats a row. The join order is left to SQLite. `FriendLinkIsDirectional` pins down the effect of one added link exactly.
- Request bodies are typed. Fields are optional strings and `isTyping` is a boolean (the source forwards any JSON value unchanged). For `sendMessage` a null payload behaves like missing fields: the destructuring throws inside the handler's `try` and nothing is stored or emitted. A `typing` event whose payload is null or absent throws in the handler and is not modelled; `ChatServer.Typing` with no `recipientId` stands only for a payload object that lacks the field.
- History rows reach the client with snake_case keys (`sender_id`), unlike pushed records (`senderId`). The client model uses one record type for both.
- The auth store (src/stores/auth.js) is not part of this model. The local user's id is a parameter `me` of the handlers that read it.
- In the chat store, the `typing` push handler and the `connect`/`disconnect` handlers do nothing beyond logging, so they are not modelled. The socket library's own flag changes are `TransportConnected` and `TransportClosed`.
- When `connectSocket` replaces an existing socket, the old socket's handlers stay registered. The model holds a single socket.
- `message` pushes are appended to the message list whatever conversation is active, as in the source. Display filtering belongs to the presentation layer, which is not modelled.
