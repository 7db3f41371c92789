# chatify chat core in Dafny

A model of chatify's one-to-one chat, with proofs about it. It covers both sides of the chat:

- **Server side:**
  - the session gate that resolves the `jwt` cookie to a user;
  - the message controller: contacts, one conversation in time order, chat partners, and the send handler's checks;
  - the socket server's presence registry (`userId -> socketId`) and its `getOnlineUsers` broadcast.
- **Client side:**
  - the chat store: the optimistic send with confirm-by-id and rollback-by-id, the push listener, and the sound setting;
  - the auth store: the session, the socket lifecycle and the online list;
  - the message input: the trim-based send guard and the payload it builds;
  - the profile header: avatar upload checks and the avatar source.

The network, the database, the token library and the image host are not called. Their answers are parameters of the operations:

- `response` / `reply`: an HTTP reply, or `None` when the request fails;
- `storeFault`: the database query throws;
- `saveFault`: saving the new message throws;
- `upload`: the image host's URL, or `None` when the upload throws;
- `validate`: the token check;
- `jwt`: the cookie;
- `clock`, `now`, `createdAt`: the clock;
- `handle`, `newId`: fresh ids.

Files:

| file | module | models |
|---|---|---|
| `domain.dfy` | `Domain` | shared values: `Option`, JavaScript truthiness, users with and without password, the send payload, picked files |
| `chat_store.dfy` | `ChatStore` | `apps/frontend/src/store/useChatStore.ts` (class `Store`) |
| `presence.dfy` | `Presence` | `apps/backend/src/lib/socket.ts` (pure registry functions, class `SocketServer`) |
| `message_controller.dfy` | `MessageController` | `apps/backend/src/controllers/message.controller.ts` (pure queries, class `MessageDb` for the write) |
| `auth_middleware.dfy` | `AuthMiddleware` | `apps/backend/src/middlewares/auth.middleware.ts` |
| `auth_store.dfy` | `AuthStore` | `apps/frontend/src/store/useAuthStore.ts` (class `Store`) |
| `message_input.dfy` | `MessageInput` | `apps/frontend/src/components/MessageInput.tsx` (pure guard and payload, class `Input`) |
| `profile_header.dfy` | `ProfileHeader` | `apps/frontend/src/components/ProfileHeader.tsx` (pure checks, class `Header`) |

Modelling conventions:

- **Truthiness.** `undefined`, `null` and `""` are all falsy. An optional string is truthy when it is `Some` of a non-empty string.
- **Key order.** The source's `Object.keys(userSocketMap)` lists keys in first-insertion order for non-index keys such as MongoDB ObjectId strings, which are what the registry holds. Integer-like keys would come first, in ascending order; no user id takes that form. The registry therefore keeps that key sequence beside the dictionary. `WellFormed` ties the two together.
- **Sort order.** MongoDB's `.sort({ createdAt: 1 })` does not fix the order of equal timestamps. The model uses a stable insertion sort, so equal times keep store order. The proved properties (sorted, the same multiset) hold for any tie order.

## Model

| member | source | states |
|---|---|---|
| ChatStore.ReplaceById | apps/frontend/src/store/useChatStore.ts:144-146 | same length; every entry with the id becomes the reply, in place; every other entry is untouched; if the reply has another id, no entry with the old id remains |
| ChatStore.RemoveById | apps/frontend/src/store/useChatStore.ts:149-151 | no entry with the id remains; an entry stays exactly when it was there and has another id; never longer |
| ChatStore.RemoveByIdAppend | apps/frontend/src/store/useChatStore.ts:149-151 | removal distributes over concatenation, so the surviving entries keep their relative order |
| ChatStore.RemoveByIdAbsent | apps/frontend/src/store/useChatStore.ts:149-151 | a list with no entry carrying the id is left unchanged |
| ChatStore.RollbackUndoesAppend | apps/frontend/src/store/useChatStore.ts:133-135 | appending an optimistic record with a fresh id and then rolling it back restores the list exactly |
| ChatStore.ConfirmReplacesAppended | apps/frontend/src/store/useChatStore.ts:133-146 | appending an optimistic record with a fresh id and then confirming it gives the old list plus the server record, at the optimistic record's position |
| ChatStore.Decimal | apps/frontend/src/store/useChatStore.ts:120 | the decimal rendering of the clock in the temporary id is non-empty and all digits |
| ChatStore.DecimalInjective | apps/frontend/src/store/useChatStore.ts:120 | two numbers with the same decimal rendering are equal |
| ChatStore.TempIdInjective | apps/frontend/src/store/useChatStore.ts:120 | sends at different clock readings get different temporary ids |
| ChatStore.InitialSoundSetting | apps/frontend/src/store/useChatStore.ts:45-51 | a stored JSON boolean is read back as that boolean; a missing or empty entry gives true |
| ChatStore.Store.constructor | apps/frontend/src/store/useChatStore.ts:53-62 | empty lists, the chats tab, no selection, no loading, the sound setting read from storage, no listener |
| ChatStore.Store.ToggleSound | apps/frontend/src/store/useChatStore.ts:64-68 | the setting flips and is persisted, so the initial-setting read of the new storage returns the new value |
| ChatStore.Store.SetActiveTab | apps/frontend/src/store/useChatStore.ts:70 | the tab becomes the argument |
| ChatStore.Store.SetSelectedUser | apps/frontend/src/store/useChatStore.ts:72 | the selection becomes the argument and the visible list is emptied |
| ChatStore.Store.GetAllContacts | apps/frontend/src/store/useChatStore.ts:74-86 | on success the contacts become the response, on failure they stay; loading ends false either way |
| ChatStore.Store.GetMyChatPartners | apps/frontend/src/store/useChatStore.ts:88-100 | on success the chats become the response, on failure they stay; loading ends false either way |
| ChatStore.Store.GetMessagesByUserId | apps/frontend/src/store/useChatStore.ts:102-112 | on success the messages become the response, on failure they stay; loading ends false either way |
| ChatStore.Store.BeginSend | apps/frontend/src/store/useChatStore.ts:114-135 | without a selected partner or a logged-in user nothing is appended; otherwise exactly one optimistic record is appended, with the `temp-<clock>` id, both parties, the payload and the optimistic flag |
| ChatStore.Store.ConfirmSend | apps/frontend/src/store/useChatStore.ts:143-146 | the list becomes the replace-by-temporary-id of the old list |
| ChatStore.Store.RollbackSend | apps/frontend/src/store/useChatStore.ts:147-151 | the list becomes the remove-by-temporary-id of the old list |
| ChatStore.Store.SendMessage | apps/frontend/src/store/useChatStore.ts:114-155 | the guard leaves the list unchanged; when the temporary id is fresh, a completed send leaves the old list plus the server record, and a failed send leaves the old list |
| ChatStore.Store.Subscribe | apps/frontend/src/store/useChatStore.ts:157-177 | with a partner and a socket, the previous listener is removed and exactly one listener remains, bound to the partner and the current sound setting; otherwise nothing changes; at most one listener ever |
| ChatStore.Store.Unsubscribe | apps/frontend/src/store/useChatStore.ts:179-182 | with a socket no listener remains; without one nothing changes |
| ChatStore.Store.OnNewMessage | apps/frontend/src/store/useChatStore.ts:165-176 | a push from anyone but the bound partner is dropped without a sound; a push from the partner is appended, and the sound plays exactly when the captured setting is on |
| Presence.Lookup | apps/backend/src/lib/socket.ts:35-37 | a socket id is returned exactly when the user has an entry, and it is that entry |
| Presence.OnlineUsers | apps/backend/src/lib/socket.ts:47 | the broadcast lists each online user once, and exactly the users with an entry |
| Presence.Without | apps/backend/src/lib/socket.ts:52 | the key list loses exactly that key and keeps no repeats |
| Presence.WithoutLast | apps/backend/src/lib/socket.ts:44-52 | removing a key that was just appended gives back the earlier key list |
| Presence.Connect | apps/backend/src/lib/socket.ts:44 | the user's entry becomes the new socket; every other user's entry is unchanged; the registry stays well formed; a reconnect keeps the key order |
| Presence.Disconnect | apps/backend/src/lib/socket.ts:52 | the user has no entry afterwards, whichever socket it named; every other user's entry is unchanged; the registry stays well formed |
| Presence.DisconnectGuarded | apps/backend/src/lib/socket.ts:49-54 | the corrected disconnect: the entry goes only while it names the closing socket, otherwise the registry is unchanged; other users untouched |
| Presence.ConnectDisconnectRestores | apps/backend/src/lib/socket.ts:44-52 | an offline user who connects and then disconnects leaves the registry, key order included, exactly as it was |
| Presence.GuardedAgreesOnCurrent | apps/backend/src/lib/socket.ts:49-54 | for the socket currently registered, the guarded and the as-written disconnect agree |
| Presence.StaleDisconnectEvicts | apps/backend/src/lib/socket.ts:44-53 | as written, after a reconnect on a second socket, the first socket's late disconnect takes the user offline |
| Presence.GuardedKeepsNewer | apps/backend/src/lib/socket.ts:44-53 | under the guarded rule, the newer socket's entry survives that late disconnect |
| Presence.SocketServer.constructor | apps/backend/src/lib/socket.ts:27 | the registry starts empty with no broadcast |
| Presence.SocketServer.GetReceiverSocketId | apps/backend/src/lib/socket.ts:35-37 | returns the user's registered socket id, or none exactly when the user has no entry |
| Presence.SocketServer.OnConnection | apps/backend/src/lib/socket.ts:39-47 | the registry becomes the connect of the old one, and its online list is broadcast once |
| Presence.SocketServer.OnDisconnect | apps/backend/src/lib/socket.ts:49-54 | the registry becomes the as-written disconnect of the old one, and its online list is broadcast once |
| Presence.SocketServer.OnDisconnectGuarded | apps/backend/src/lib/socket.ts:49-54 | the corrected handler: the registry becomes the guarded disconnect, and its online list is broadcast once |
| MessageController.OthersOf | apps/backend/src/controllers/message.controller.ts:14 | every listed contact is an existing user other than the caller, without password, and every other user is listed |
| MessageController.GetAllContacts | apps/backend/src/controllers/message.controller.ts:6-22 | no caller gives 401; a store fault gives 500; otherwise 200 with exactly the other users, without password |
| MessageController.FilterPair | apps/backend/src/controllers/message.controller.ts:38-42 | each message between the two parties, in either direction, is kept as often as it is stored; every other message is dropped |
| MessageController.FilterPairSymmetric | apps/backend/src/controllers/message.controller.ts:38-42 | the filter does not depend on which party asks |
| MessageController.Insert | apps/backend/src/controllers/message.controller.ts:43 | inserting into a time-sorted list keeps it sorted and adds exactly that message |
| MessageController.SortByTime | apps/backend/src/controllers/message.controller.ts:43 | the result is sorted by creation time and is a permutation of the input |
| MessageController.Conversation | apps/backend/src/controllers/message.controller.ts:38-43 | oldest first, and exactly the messages between the two parties, each as often as stored |
| MessageController.ConversationSymmetric | apps/backend/src/controllers/message.controller.ts:38-43 | both parties see the same messages in the same order |
| MessageController.GetMessagesByUserId | apps/backend/src/controllers/message.controller.ts:24-51 | no caller gives 401; no chat id gives 400; a store fault gives 500; otherwise 200 with the pair's conversation: sorted by time, holding each message between the two as often as it is stored and no other |
| MessageController.OtherSides | apps/backend/src/controllers/message.controller.ts:114-124 | lists exactly the ids on the other side of a message involving the caller |
| MessageController.Dedupe | apps/backend/src/controllers/message.controller.ts:118-126 | no repeats, and the same members as the input |
| MessageController.PartnerIds | apps/backend/src/controllers/message.controller.ts:114-126 | no repeats, and exactly the ids the caller has exchanged a message with |
| MessageController.UsersWithIds | apps/backend/src/controllers/message.controller.ts:128 | exactly the users whose id is listed, without password; with unique store ids, no user twice |
| MessageController.GetChatPartners | apps/backend/src/controllers/message.controller.ts:105-136 | no caller gives 401; a store fault gives 500; otherwise 200 with exactly the users the caller has exchanged a message with, each once |
| MessageController.SendRejection | apps/backend/src/controllers/message.controller.ts:59-74 | the checks in source order: no sender 401, no text and no image 400, self-addressed 400, failed receiver lookup 500, unknown receiver 404; no rejection exactly when all pass |
| MessageController.MessageDb.SendMessage | apps/backend/src/controllers/message.controller.ts:53-103 | a rejection returns its status and stores nothing; a failed image upload gives 500 and stores nothing; a failed save gives 500 and stores nothing; otherwise 201 and exactly one new message is appended, carrying the hosted image URL; a stored message always has text or an image |
| AuthMiddleware.FindById | apps/backend/src/middlewares/auth.middleware.ts:28 | a found user is stored and has the id; no user is found exactly when no stored user has the id |
| AuthMiddleware.Authenticate | apps/backend/src/middlewares/auth.middleware.ts:20-45 | no token gives 401 "No token"; a falsy decode gives 401 "Invalid token"; a throwing decode or lookup gives 401 "Invalid or expired token"; an unknown user gives 404; otherwise the public identity of the token's user is attached and `next` runs once; `next` runs at most once and never after a rejection |
| AuthStore.Store.constructor | apps/frontend/src/store/useAuthStore.ts:33-40 | no user, the session check pending, no socket, nobody online |
| AuthStore.Store.CheckAuth | apps/frontend/src/store/useAuthStore.ts:42-51 | the user becomes the session reply, or none on failure; the check is no longer pending |
| AuthStore.Store.ConnectSocket | apps/frontend/src/store/useAuthStore.ts:79-92 | a socket for the user's id is opened only for a logged-in user without a socket; otherwise nothing changes |
| AuthStore.Store.OnOnlineUsers | apps/frontend/src/store/useAuthStore.ts:87-89 | the online list becomes the broadcast, so a user is shown online (apps/frontend/src/components/ContactList.tsx:45) exactly when the broadcast names them |
| AuthStore.Store.DisconnectSocket | apps/frontend/src/store/useAuthStore.ts:94-100 | an open socket is closed and forgotten and the online list is emptied; without a socket nothing changes |
| AuthStore.Store.Signup | apps/frontend/src/store/useAuthStore.ts:53-65 | success sets the user and connects its socket if none is open; failure changes neither; the flag ends false |
| AuthStore.Store.Logout | apps/frontend/src/store/useAuthStore.ts:67-71 | success closes the socket, empties the online list and clears the user; a failed request changes nothing |
| AuthStore.Store.UpdateProfile | apps/frontend/src/store/useAuthStore.ts:73-77 | the user becomes the reply; a failed request changes nothing |
| MessageInput.SkipSpace | apps/frontend/src/components/MessageInput.tsx:20 | scanning forward passes only white space and stops at the first character that is not white space, or at the end |
| MessageInput.SkipSpaceBack | apps/frontend/src/components/MessageInput.tsx:20 | scanning backward passes only white space and stops just after the last character that is not white space, or at the lower bound |
| MessageInput.Trim | apps/frontend/src/components/MessageInput.tsx:20-23 | the slice of the text between an all-white-space prefix and an all-white-space suffix; neither end of it is white space; empty exactly when the text is all white space |
| MessageInput.SubmitDisabled | apps/frontend/src/components/MessageInput.tsx:108 | the button is disabled, as the send guard at line 20 refuses, exactly when the text is all white space and there is no preview |
| MessageInput.BuildPayload | apps/frontend/src/components/MessageInput.tsx:22-25 | the image is the preview; the text is absent exactly when it is all white space, and otherwise it is the non-empty trimmed text; whatever the guard lets through passes the server's content check |
| MessageInput.Input.constructor | apps/frontend/src/components/MessageInput.tsx:12-15 | empty text, no preview, an empty file input |
| MessageInput.Input.SetText | apps/frontend/src/components/MessageInput.tsx:78-81 | the text becomes the typed value |
| MessageInput.Input.HandleSendMessage | apps/frontend/src/components/MessageInput.tsx:17-30 | nothing is sent exactly when the guard refuses, and then nothing changes; otherwise the built payload, which has content, is sent and the input is reset |
| MessageInput.Input.HandleImageChange | apps/frontend/src/components/MessageInput.tsx:32-45 | a read starts exactly for an image file; a non-image file clears the file input; the preview is not set here |
| MessageInput.Input.OnPreviewLoaded | apps/frontend/src/components/MessageInput.tsx:43 | the preview becomes the reader's result |
| MessageInput.Input.RemoveImage | apps/frontend/src/components/MessageInput.tsx:47-50 | no preview and an empty file input |
| ProfileHeader.ValidateUpload | apps/frontend/src/components/ProfileHeader.tsx:20-26 | a non-image is refused whatever its size; an image over 2 MiB is too large; exactly the images of at most 2 MiB are accepted |
| ProfileHeader.UploadLimitBoundary | apps/frontend/src/components/ProfileHeader.tsx:24-26 | an image of exactly 2 MiB passes and one byte more is refused |
| ProfileHeader.AvatarSrc | apps/frontend/src/components/ProfileHeader.tsx:53 | never empty: the picked image if truthy, else the stored picture if non-empty, else the default avatar |
| ProfileHeader.Header.constructor | apps/frontend/src/components/ProfileHeader.tsx:10 | no picked image and no profile update |
| ProfileHeader.Header.HandleImageUpload | apps/frontend/src/components/ProfileHeader.tsx:15-37 | no file does nothing; a non-image alerts "Please select an image file"; an oversized image alerts "Image size must be under 2MB"; a read starts exactly for an accepted file, and then with no alert |
| ProfileHeader.Header.OnUploadRead | apps/frontend/src/components/ProfileHeader.tsx:31-36 | a string result becomes the picked image and is sent as exactly one profile update; any other result changes nothing |
| ProfileHeader.Header.Render | apps/frontend/src/components/ProfileHeader.tsx:39-53 | nothing is rendered exactly when no user is logged in; otherwise the user's name and a non-empty avatar source |

## Left out

- I/O is left out: the HTTP requests, MongoDB, local storage reads at start-up, the socket transport, the token library and the image host. Their answers are operation parameters, as listed above.
- Toasts, `alert` dialogs other than the returned alert text, the notification and keystroke sounds, and console logging are left out (side effects only). Sound is reported as a `playSound` result.
- The asynchronous interleaving is not modelled. While a send request is in flight, a push, a conversation switch or a second send can change the list, and the confirm or rollback still acts by temporary id. `ChatStore.Store.SendMessage` runs one send to completion. `ConfirmSend` and `RollbackSend` model its two halves separately, for any list.
- ChatStore.Store.SendMessage: the end-to-end statement assumes the temporary id is fresh in the list. Two sends in the same millisecond share an id, because `Date.now()` is the only source. In that case only the replace/remove contracts of `ConfirmSend`/`RollbackSend` apply.
- ChatStore.InitialSoundSetting: only the stored strings "true" and "false" are modelled as JSON. Any other truthy stored string is taken as true, which covers invalid JSON (the catch branch) and truthy JSON values. Falsy JSON values such as `0` or `null` are not distinguished.
- MongoDB's ObjectId cast errors (a malformed id makes a query throw) are folded into `storeFault`. Sort ties follow store order, as noted above.
- Socket replacement is not modelled. A socket opened by a second `connectSocket` after a disconnect does not carry the chat store's listener: the two stores are modelled separately, and `hasSocket` stands for the auth store's socket.
- The socket handshake authentication is commented out in `apps/backend/src/lib/socket.ts:30`. The connecting user id is therefore a parameter of `OnConnection`.
- Presence.SocketServer.OnConnection: the model assumes the handshake middleware has set `socket.userId` and `socket.user`. As written nothing sets them: `apps/backend/src/lib/socket.ts:7-14` only declares their types, and the middleware is commented out at line 30. So the log at line 40 reads `fullName` of undefined and throws before the registry write at line 44, and nothing is registered or broadcast. Without that throw every socket would be keyed by the string "undefined". The client's `query.userId` (`apps/frontend/src/store/useAuthStore.ts:84`) is never read by the server.
- The push to the receiver in `sendMessage` (`apps/backend/src/controllers/message.controller.ts:92-95`) is commented out, so the model pushes nothing.
- The routing between client and server is not wired in the source. The client posts to `/messages/send/:id` and reads `/message/...`. The server mounts `/api/message` with only a placeholder route (`apps/backend/src/route/message.route.ts:5-7`). The handlers are therefore modelled on their own, without routes.
- The auth controller (signup, login, profile handlers), the email handlers, the rate-limiting middleware, the page components and the remaining UI markup are not part of this model.

## Findings

| source | as written | input that shows it | evidently intended | confidence | as-written member | corrected member |
|---|---|---|---|---|---|---|
| apps/backend/src/lib/socket.ts:49-53 | the `disconnect` handler deletes `userSocketMap[userId]` whatever socket it names | user U connects on socket S1, then again on S2 (a second tab or a reconnect); S1's disconnect then arrives | U stays online on S2: the entry is removed only while it still names the closing socket | medium, not executed | Presence.StaleDisconnectEvicts (over Presence.Disconnect) | Presence.GuardedKeepsNewer (over Presence.DisconnectGuarded, used by Presence.SocketServer.OnDisconnectGuarded) |

`Presence.SocketServer.OnDisconnect` keeps the as-written rule, so the server's handler is modelled as it is. `OnDisconnectGuarded` is the corrected handler. `GuardedAgreesOnCurrent` proves the two agree whenever the closing socket is the registered one.
