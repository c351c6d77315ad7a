# VibeLink chat core in Dafny

VibeLink is a Next.js chat application. It has four parts:

- a Socket.IO relay (`server.js`) that announces presence, joins conversation rooms and forwards message, status and typing events;
- HTTP route handlers over MongoDB for messages, read receipts, unread counts, conversations, users and sign-up;
- React components: the chat window, the sidebar and the sign-up page;
- scripted "agent" accounts that answer with canned replies.

This project models the logic at the centre of those parts and proves what each part promises.

The model is sequential. Each socket event, HTTP request or React state update is one atomic step. Time stamps, fresh ids, timers and `Math.random()` are parameters.

## Modules

One module per source file, plus three shared ones.

| Module | Models | Form |
|---|---|---|
| `Common` | JavaScript truthiness, `trim`, ASCII `toLowerCase`/`toUpperCase` and `includes` on strings | shared helpers |
| `Wire` | the message and event shapes that travel between browser, relay and routes | shared types |
| `Store` | the three MongoDB collections, held in memory by `class Db` | see below |
| `Sorting` | `$sort`, as a stable insertion sort under a total preorder | pure |
| `Relay` | `server.js` | class |
| `ChatWindow` | `ChatWindow.tsx` | mixed, see below |
| `Sidebar` | `Sidebar.tsx` | mixed, see below |
| `StatusApi` | `/api/messages/status` | route |
| `MessagesApi` | `/api/messages` | route |
| `UnreadApi` | `/api/messages/unread` | pure count |
| `ConversationsApi` | `/api/conversations` | route |
| `UsersApi` | `/api/users` | route |
| `SignupApi` | `/api/auth/signup` | route |
| `Agents` | `lib/agents.ts` | pure |
| `ImageUtils` | `validateFile` | pure |
| `SignupPage` | `getDeviceInfo` and the sign-up form | mixed |

How the stateful parts are built:

- **`Relay`:** `class RelayServer` keeps `userSockets`, `conversationRooms` and each socket's `userId` as fields. Every handler method returns the emitted events, each with the sockets it reaches.
- **`Store`:** `Db`'s update methods are `User.create`, `Conversation.create`, `Message.create`, `findByIdAndUpdate` and `updateMany`. `updateMany` is written as a loop. Each filter and update document the routes send is a small datatype (`Selector`, `Change`).
- **Route handlers:** each is a method on a `Db`. A body field, a session and a fault each become an `Option` parameter. Every error reply is modelled with its code and message.
- **`ChatWindow`:**
  - Each `setMessages` updater is a pure function over `seq<Message>`.
  - `class ChatView` holds the component state that `handleTyping` and `handleSendMessage` change step by step.
  - The typing timer is an abstract timer id: one slot for `typingTimeoutRef`, plus the set of timers still pending.
- **`Sidebar`:** the conversation list is reordered by the copy-splice-unshift of `handleMessageUpdate`, done in place on an array. The search filter and the partition into agents and real users are pure filters.

### Behaviour of the code worth knowing

- **No forward-only status guard.** Neither the chat window's status handlers nor the status routes compare the old status with the new one. A late `delivered` turns `seen` back into `delivered`. `ChatWindow.LateDeliveredRegressesSeen` and `StatusApi.DeliveredAfterSeenRegresses` prove this.
- **`message:send` carries no recipients.** The chat window passes a recipient list, but `sendMessage` in `src/components/SocketProvider.tsx:79-88` drops it. The relay emits only `message:new` to the room and `message:sent` to the sender; no per-user notification is sent.
- **`conversation:join` has no membership check.** Any socket can join any conversation's room and receive its traffic.
- **Ids are compared after the ObjectId cast.** Hex digits are read in either case, so a request id in upper case names the same document as its lower-case form (`Store.CastId`).

## Model

| member | source | states |
|---|---|---|
| Common.TrimStartSuffix | src/components/Layout/Sidebar.tsx:53 | dropping leading white space leaves a suffix of the input that starts with a non-space, and everything removed is white space |
| Common.TrimEndPrefix | src/components/Layout/Sidebar.tsx:53 | dropping trailing white space leaves a prefix of the input that ends with a non-space, and everything removed is white space |
| Common.TrimEnds | src/components/Chat/ChatWindow.tsx:265 | a trimmed string neither starts nor ends with white space |
| Common.TrimEmptyIff | src/components/Chat/ChatWindow.tsx:263 | `s.trim()` is empty exactly when `s` is all white space |
| Common.ToLower | src/lib/agents.ts:144 | `toLowerCase` keeps the length and maps each character through the ASCII lower-case map |
| Common.ToUpper | src/components/Layout/Sidebar.tsx:123 | `toUpperCase` keeps the length and maps each character through the ASCII upper-case map |
| Common.ContainsPrefix | src/lib/agents.ts:154-158 | wherever `p + q` occurs in `s`, `p` occurs too (`includes` is monotone in the pattern) |
| Common.ToLowerIdempotent | src/app/api/auth/signup/route.ts:28 | lower-casing twice equals lower-casing once |
| Common.TrimIdempotent | src/models/User.ts:35 | trimming twice equals trimming once |
| Wire.StatusName | src/models/Message.ts:3 | each status has its own name: "sending", "sent", "delivered", "seen", one per status, so the names are distinct; exactly the statuses other than `sending` are among the schema enum's values |
| Sorting.InsertPermutes | src/app/api/messages/route.ts:70 | inserting into a list adds exactly that one element |
| Sorting.InsertSorted | src/app/api/messages/route.ts:70 | insertion into a sorted list keeps it sorted under a total preorder |
| Sorting.SortBySorted | src/app/api/conversations/route.ts:79 | the `$sort` result is ordered by the sort key |
| Sorting.SortByPermutes | src/app/api/conversations/route.ts:79 | the `$sort` result is a permutation of its input |
| Store.Apply | src/app/api/messages/status/route.ts:33-39 | an update sets `status` and `updatedAt` and changes `seenBy` only as its operator says: unchanged, or one entry appended for `$push` and for `$addToSet` alike (the added sub-document gets a fresh `_id`, so it never equals a stored one); no other field changes |
| Store.CastId | src/app/api/messages/status/route.ts:31 | the cast of a valid id is a valid id with no upper-case letter, equal to the input up to letter case |
| Store.UpdatedMany | src/app/api/messages/status/route.ts:41-47 | `updateMany` keeps the number of documents |
| Store.UpdatedManyTouchesOnlyMatches | src/app/api/messages/status/route.ts:41-47 | an update changes only the documents its filter matches, gives each of them the new status, and never changes an id, a sender or a conversation |
| Store.FindUser | src/app/api/conversations/route.ts:123-125 | `findById` finds a stored user with that id exactly when one exists |
| Store.FindMembership | src/app/api/messages/route.ts:30-33 | `findOne({_id: c, participants: u})` finds conversation `c` exactly when `u` takes part in it |
| Store.WithLastMessage | src/app/api/messages/route.ts:136-139 | only conversation `c` changes: its `lastMessage`, `lastMessageAt` and `updatedAt` are set, everything else is kept |
| Store.Db.constructor | src/models/User.ts:28-81 | an empty store satisfies the uniqueness invariant |
| Store.Db.InsertUser | src/models/User.ts:30-36 | `User.create` adds the user exactly when its email is not taken (the unique index); otherwise nothing changes |
| Store.Db.InsertConversation | src/app/api/conversations/route.ts:117-119 | `Conversation.create` appends the document and keeps ids unique |
| Store.Db.InsertMessage | src/app/api/messages/route.ts:128-133 | `Message.create` appends the document and keeps ids unique |
| Store.Db.SetLastMessage | src/app/api/messages/route.ts:136-139 | the new conversations are `WithLastMessage` of the old ones |
| Store.Db.UpdateMany | src/app/api/messages/status/route.ts:41-47 | the loop leaves exactly `UpdatedMany` of the old messages and keeps ids unique |
| Relay.JoinKeepsRoomsMatched | server.js:52-61 | entering room `c` and appending `c` to the socket's join list keeps room membership and join lists in step |
| Relay.LeaveKeepsRoomsMatched | server.js:133-147 | dropping a socket from every room and deleting its join list keeps them in step |
| Relay.RelayServer.constructor | server.js:35-36 | both maps start empty |
| Relay.RelayServer.Connect | server.js:38 | a new connection adds only the socket and changes no map |
| Relay.RelayServer.UserOnline | server.js:42-49 | `userSockets[u] = s` (replacing any earlier socket), `socket.userId = u`, and exactly one online `user:status` goes to every other socket |
| Relay.RelayServer.Join | server.js:52-61 | the socket enters the room; its list is created empty on the first join and `c` is appended on every join, so repeats are kept; nothing is emitted |
| Relay.RelayServer.Send | server.js:64-81 | `message:new` with the inputs unchanged goes to the room minus the sender, `message:sent` with `message.id` and 'sent' goes to the sender alone, and nothing else is emitted |
| Relay.RelayServer.Delivered | server.js:84-94 | the ids and user are forwarded unchanged with status delivered to the room minus the reporter |
| Relay.RelayServer.SeenReport | server.js:97-110 | the ids and user are forwarded unchanged with status seen to the room minus the reporter |
| Relay.RelayServer.Typing | server.js:113-130 | `typing:user` goes to the room minus the sender; start carries the name and `isTyping` true, stop carries no name and false |
| Relay.RelayServer.Disconnect | server.js:133-147 | the socket's join list is deleted. A socket with a `userId` removes that identity's mapping, even if a newer socket owns it, and broadcasts one offline status. A socket that never announced emits nothing |
| Relay.RelayServer.Error | server.js:150-152 | an error event emits nothing and changes nothing |
| Relay.RelayServer.Handle | server.js:41-152 | only `user:online` and `conversation:join` change state; every emission goes to other sockets except the sender's own `message:sent` |
| Relay.LastAnnouncerWins | server.js:42-45 | after two `user:online(u)` from two sockets, `userSockets[u]` is the later socket |
| Relay.StaleDisconnect | server.js:136-137 | closing the older socket of an identity removes the identity's mapping while the newer socket is still connected and announced |
| Relay.DoubleJoin | server.js:57-60 | joining the same conversation twice lists it twice |
| ChatWindow.AppendNew | src/components/Chat/ChatWindow.tsx:79-83 | an existing id leaves the list unchanged; otherwise the message itself is appended at the end; either way its id is present and distinct ids stay distinct |
| ChatWindow.OnNewMessage | src/components/Chat/ChatWindow.tsx:76-99 | another conversation changes nothing. This conversation dedupe-appends. Delivered (100 ms) and seen (1000 ms) reports are scheduled exactly when the sender is not the current user |
| ChatWindow.NewMessagesKeepIdsDistinct | src/components/Chat/ChatWindow.tsx:79-83 | no sequence of `message:new` events ever introduces a duplicate id |
| ChatWindow.ResolveTemp | src/components/Chat/ChatWindow.tsx:102-110 | entries with the temporary id take the permanent id and status sent; every other entry, and the length, are unchanged |
| ChatWindow.MarkStatus | src/components/Chat/ChatWindow.tsx:113-134 | only own messages listed in the notice change, and only in status, which is overwritten whatever it was; length, order and ids are preserved |
| ChatWindow.LateDeliveredRegressesSeen | src/components/Chat/ChatWindow.tsx:113-122 | a delivered notice after a seen notice leaves the message delivered |
| ChatWindow.ReplaceTemp | src/components/Chat/ChatWindow.tsx:333-339 | the temporary entry becomes the saved message with status sent, in place; all others are untouched |
| ChatWindow.RemoveId | src/components/Chat/ChatWindow.tsx:357 | the result holds exactly the entries whose id is not the temporary one |
| ChatWindow.RemoveAbsentId | src/components/Chat/ChatWindow.tsx:364 | removing an id that is not present changes nothing |
| ChatWindow.RemoveIdAppend | src/components/Chat/ChatWindow.tsx:357 | the failure filter distributes over concatenation |
| ChatWindow.FailedSendRemovesOnlyTemp | src/components/Chat/ChatWindow.tsx:357 | a failed send removes exactly its own temporary entry and keeps the entries before and after it in order |
| ChatWindow.LateSentEchoIsNoOp | src/components/Chat/ChatWindow.tsx:102-110 | after the REST reply replaced the temporary entry, the later `message:sent` changes nothing |
| ChatWindow.SucceededSendReplacesLast | src/components/Chat/ChatWindow.tsx:304 | the optimistic entry appended last becomes the saved message with status sent, in the same place |
| ChatWindow.UnseenIds | src/components/Chat/ChatWindow.tsx:168-170 | an id is selected exactly when some message with it is from someone else and not seen |
| ChatWindow.SeenSweep | src/components/Chat/ChatWindow.tsx:165-179 | the sweep reports exactly the unseen foreign ids, and does nothing without a user or when there are none |
| ChatWindow.StatusNoticesKeepUnseen | src/components/Chat/ChatWindow.tsx:113-134 | status notices never change what the sweep selects |
| ChatWindow.OnTypingNotice | src/components/Chat/ChatWindow.tsx:137-142 | a notice from someone else in this conversation is shown (a name only while typing); any other notice is ignored |
| ChatWindow.AfterSendOk | src/components/Chat/ChatWindow.tsx:333-347 | the list after success is the replaced list, with the agent's reply appended when there is one |
| ChatWindow.TempMessage | src/components/Chat/ChatWindow.tsx:288-302 | the optimistic entry has the temporary id, the trimmed text, status sending, the current time, the attachment, and the session user as sender: its id, its name or "" when it has none, its image or none, not an agent |
| ChatWindow.PendingImage | src/components/Chat/ChatWindow.tsx:278-285 | an attachment is sent exactly when a file is selected and a preview exists, and it holds the preview data with the selected file's type and size |
| ChatWindow.ChatView.constructor | src/components/Chat/ChatWindow.tsx:46-57 | the initial state: no messages, empty input, not sending, no attachment, no timer |
| ChatWindow.ChatView.HandleTyping | src/components/Chat/ChatWindow.tsx:212-231 | without socket or user nothing happens; otherwise `typing:start` is emitted, the old stop timer is cleared, and exactly one stop timer (the new one) is pending |
| ChatWindow.ChatView.InputChange | src/components/Chat/ChatWindow.tsx:722-725 | the input holds the text, then `handleTyping` runs |
| ChatWindow.ChatView.StopTimerFires | src/components/Chat/ChatWindow.tsx:225-230 | the pending timer emits `typing:stop` and nothing is pending afterwards |
| ChatWindow.ChatView.SelectImage | src/components/Chat/ChatWindow.tsx:233-250 | a file that fails `validateFile` shows its error and keeps the old selection; a valid one is selected with its preview and no error |
| ChatWindow.ChatView.RemoveImage | src/components/Chat/ChatWindow.tsx:252-259 | file, preview and image error are all cleared |
| ChatWindow.ChatView.BeginSend | src/components/Chat/ChatWindow.tsx:261-305 | blocked exactly when there is no text and no file, or a send is in flight, or the socket is disconnected; then nothing changes. Otherwise the input is cleared, sending is set, `typing:stop` is emitted, the 'sending' entry is appended last, the attachment is cleared, and the POST body is the trimmed text and image |
| ChatWindow.ChatView.FinishSendOk | src/components/Chat/ChatWindow.tsx:333-347 | the list becomes `AfterSendOk`, `message:send` goes out without recipients, and sending ends |
| ChatWindow.ChatView.FinishSendFailed | src/components/Chat/ChatWindow.tsx:349-367 | the error is shown, exactly the temporary entry is removed, and sending ends |
| ChatWindow.FailedSendRestoresList | src/components/Chat/ChatWindow.tsx:261-367 | a send that fails leaves the message list as it was before the send |
| Sidebar.PreviewNeverBlank | src/components/Layout/Sidebar.tsx:53 | the preview is never blank, and content with a visible character is shown as sent |
| Sidebar.FallbacksNotBlank | src/components/Layout/Sidebar.tsx:53 | the image marker and the word 'Message' are not blank |
| Sidebar.FindIndex | src/components/Layout/Sidebar.tsx:43 | `findIndex` gives the first matching index, or none exactly when nothing matches (always when no conversation id is given) |
| Sidebar.MovedToFrontShape | src/components/Layout/Sidebar.tsx:58-61 | the moved list has the same length, the updated entry first, the others in their relative order, and exactly one entry replaced |
| Sidebar.MovedTwice | src/components/Layout/Sidebar.tsx:43-61 | a second message for the same conversation finds it at index 0 and only replaces its preview |
| Sidebar.MovedToFrontByElements | src/components/Layout/Sidebar.tsx:58-61 | a list that agrees element by element with splice-then-unshift is that list |
| Sidebar.MoveToFront | src/components/Layout/Sidebar.tsx:58-60 | the in-place shift on the copied array yields exactly the splice-then-unshift list |
| Sidebar.Keep | src/components/Layout/Sidebar.tsx:127-131 | `filter` keeps exactly the elements passing the test |
| Sidebar.KeepAppend | src/components/Layout/Sidebar.tsx:127-131 | `filter` distributes over concatenation, so the original order is kept |
| Sidebar.KeepPartition | src/components/Layout/Sidebar.tsx:134-135 | a filter and its negation together hold every element exactly once |
| Sidebar.KeepAgrees | src/components/Layout/Sidebar.tsx:127-131 | filters that agree on every element give the same list |
| Sidebar.FilteredUsers | src/components/Layout/Sidebar.tsx:127-131 | a user is kept exactly when the lower-cased query occurs in its lower-cased name or email |
| Sidebar.EmptyQueryKeepsAll | src/components/Layout/Sidebar.tsx:127-131 | an empty query keeps every user in order |
| Sidebar.QueryCaseInsensitive | src/components/Layout/Sidebar.tsx:129-130 | queries equal up to letter case give the same result |
| Sidebar.SectionsPartition | src/components/Layout/Sidebar.tsx:134-135 | agents and real users split the filtered users by `isAgent`, each user exactly once |
| Sidebar.Split | src/components/Layout/Sidebar.tsx:120 | `split(' ')` yields at least one piece |
| Sidebar.GetInitials | src/components/Layout/Sidebar.tsx:118-125 | the initials are the first two of the name's word-initial letters (`WordInitials`, fewer when there are fewer), upper-cased; so at most two characters, none of them a lower-case letter |
| Sidebar.WordStarts | src/components/Layout/Sidebar.tsx:118-125 | the word-initial letters are never spaces |
| Sidebar.HeadsAreWordStarts | src/components/Layout/Sidebar.tsx:118-125 | `split(' ')` followed by taking each piece's first character (empty pieces giving nothing) yields exactly the name's word-initial letters, for every name |
| Sidebar.WordStartsOfWord | src/components/Layout/Sidebar.tsx:118-125 | a space-free word contributes its first letter exactly when it opens a word, and nothing else |
| Sidebar.SplitWord | src/components/Layout/Sidebar.tsx:120 | a word without spaces splits into itself |
| Sidebar.SplitAfterWord | src/components/Layout/Sidebar.tsx:120 | a word and a space split off as the first piece |
| Sidebar.InitialsOfTwoWords | src/components/Layout/Sidebar.tsx:118-125 | two words give the upper-cased first letters of each |
| Sidebar.InitialsOfOneWord | src/components/Layout/Sidebar.tsx:118-125 | a one-word name gives its upper-cased first letter |
| Sidebar.InitialsOfLongName | src/components/Layout/Sidebar.tsx:118-125 | a name with more words after the second still gives only the first letters of the first two words |
| Sidebar.SidebarView.constructor | src/components/Layout/Sidebar.tsx:31-33 | both lists and the query start empty |
| Sidebar.SidebarView.Loaded | src/components/Layout/Sidebar.tsx:77-97 | each list is replaced only when its request succeeded |
| Sidebar.SidebarView.OnMessageUpdate | src/components/Layout/Sidebar.tsx:40-65 | a conversation not in the list (always so for `message:sent`) requests a refetch and changes nothing; otherwise only its preview changes and it moves to the front |
| StatusApi.StatusChange | src/app/api/messages/status/route.ts:33-39 | the update sets the requested status; `$addToSet` of the caller's entry happens exactly for 'seen' |
| StatusApi.Check | src/app/api/messages/status/route.ts:13-26 | 401 without session, then 400 for missing, non-array or empty ids, then 400 for a status outside sent/delivered/seen, else proceed |
| StatusApi.Patch | src/app/api/messages/status/route.ts:9-54 | a failed check or a non-ObjectId id leaves the store unchanged; otherwise the store is `UpdatedMany` over the listed messages (ids compared after the cast) not sent by the caller, and `updated` is the number of ids sent |
| StatusApi.StatusUpdateEffect | src/app/api/messages/status/route.ts:33-47 | a listed foreign message takes the status whatever it was, and gains a seen entry only for 'seen'; own and unlisted messages are untouched |
| StatusApi.DeliveredAfterSeenRegresses | src/app/api/messages/status/route.ts:33 | a later 'delivered' batch turns 'seen' back into 'delivered' |
| StatusApi.RepeatedSeenDuplicatesEntries | src/app/api/messages/status/route.ts:35-39 | two 'seen' batches, even at the same instant, leave two seen entries for the caller |
| StatusApi.OwnMessageCountedAsUpdated | src/app/api/messages/status/route.ts:49 | listing one's own message reports `updated: 1` while nothing changes |
| UnreadApi.MemberConversations | src/app/api/messages/unread/route.ts:21-25 | exactly the ids of the conversations the caller takes part in |
| UnreadApi.UnreadCount | src/app/api/messages/unread/route.ts:30-34 | the count never exceeds the number of messages |
| UnreadApi.Get | src/app/api/messages/unread/route.ts:9-41 | 401 without session; otherwise 200 with `UnreadCount` over the caller's conversations: the number of messages in them, from someone else, with no seen entry for the caller (its value is fixed by CountZeroIff and CountAppend), so 0 exactly when none qualifies |
| UnreadApi.CountZeroIff | src/app/api/messages/unread/route.ts:30-34 | the count is zero exactly when no message qualifies |
| UnreadApi.CountAppend | src/app/api/messages/unread/route.ts:30-34 | counting a concatenation adds the counts |
| UnreadApi.CountMonotone | src/app/api/messages/unread/route.ts:30-34 | if each message qualifies only when its counterpart did, the count does not grow |
| UnreadApi.CountPointwise | src/app/api/messages/unread/route.ts:30-34 | if qualification agrees pointwise, the counts agree |
| UnreadApi.OwnMessageNeverCounts | src/app/api/messages/unread/route.ts:32 | the caller's own message never changes the caller's count |
| UnreadApi.ForeignMessageNeverCounts | src/app/api/messages/unread/route.ts:21-31 | a message in a conversation the caller is not in never changes the count |
| UnreadApi.StatusOnlyUpdateKeepsCount | src/app/api/messages/unread/route.ts:30-34 | an update that keeps `seenBy`, such as 'delivered', never changes any count |
| UnreadApi.UpdatesNeverRaiseCount | src/app/api/messages/unread/route.ts:30-34 | no update the routes issue raises a count |
| UnreadApi.SeenByKept | src/app/api/messages/unread/route.ts:33 | a seen entry survives any growth of `seenBy` |
| MessagesApi.Project | src/app/api/messages/route.ts:41-68 | the projection keeps id, content, status, time and sender id; a found sender is shown with its id, name, avatar and agent flag, and the sender fields are absent when no user was found |
| MessagesApi.InConversation | src/app/api/messages/route.ts:40 | `$match` keeps exactly the conversation's messages, without adding any |
| MessagesApi.CreatedNoLaterOrders | src/app/api/messages/route.ts:70 | ascending `createdAt` is a total preorder |
| MessagesApi.ListingIsConversationInOrder | src/app/api/messages/route.ts:39-71 | the listing is a permutation of the conversation's projected messages, in ascending `createdAt` order |
| MessagesApi.ReadLeavesNothingUnseen | src/app/api/messages/route.ts:74-85 | after GET every foreign message of the conversation has the caller's seen entry, and each that had none is 'seen' |
| MessagesApi.ReadKeepsRegressedStatus | src/app/api/messages/route.ts:76-79 | a message already seen by the caller keeps its status, so a regressed 'delivered' stays |
| MessagesApi.ReadTwiceIsReadOnce | src/app/api/messages/route.ts:74-85 | a second GET adds no entries and changes nothing |
| MessagesApi.ReadClearsConversationFromCount | src/app/api/messages/route.ts:74-85 | after reading conversation C, C contributes nothing to the caller's unread count |
| MessagesApi.Get | src/app/api/messages/route.ts:12-92 | 401, 400, 500 (non-ObjectId) and 404 (not a participant of the cast id) leave the store unchanged. Otherwise the reply is the listing taken before the read, and the store is the read-marked store |
| MessagesApi.OtherParticipant | src/app/api/messages/route.ts:159-162 | the participant at the first position not holding the caller, every earlier one being the caller; none exactly when every participant is the caller |
| MessagesApi.AgentPeer | src/app/api/messages/route.ts:159-166 | an agent answers exactly when the other participant is a stored user marked as an agent; it is that participant, in the conversation and not the caller |
| MessagesApi.PostCheck | src/app/api/messages/route.ts:99-111 | 401 without session, 400 without conversation id or content (so image-only sends fail), 500 for a non-ObjectId, else proceed |
| MessagesApi.Post | src/app/api/messages/route.ts:95-210 | failures change nothing. Otherwise the caller's message is stored with status 'sent' and becomes `lastMessage`; without an agent `agentMessage` is null. With an agent, a reply generation that throws gives 500 with the caller's message kept; otherwise the reply is stored after it and becomes `lastMessage`, and `agentMessage` is the reply with its id, text, status 'sent', the later time and the agent as sender (id, name, avatar, agent flag true) |
| MessagesApi.Deliver | src/app/api/messages/route.ts:128-139 | the message is appended and becomes its conversation's last message |
| MessagesApi.LastMessageIsNewest | src/app/api/messages/route.ts:136-139 | after POST the last message is the newest stored one: the agent's reply when there is one |
| MessagesApi.PatchChange | src/app/api/messages/route.ts:232-238 | the update sets the status; `$push` of the caller's entry happens exactly for 'seen' |
| MessagesApi.Patch | src/app/api/messages/route.ts:213-245 | 401, 400 without id or status, and 500 for a non-ObjectId leave the store unchanged; otherwise the message with the cast id takes the status whoever sent it |
| MessagesApi.PatchAcceptsAnything | src/app/api/messages/route.ts:232-238 | any status string is written, and each 'seen' pushes another entry |
| ConversationsApi.ParticipantOf | src/app/api/conversations/route.ts:127-138 | every field of the reply's participant (id, name, avatar, isAgent, isOnline, personality) is the user record's, or all are absent without a record |
| ConversationsApi.FindBoth | src/app/api/conversations/route.ts:111-113 | finds a conversation containing both users exactly when one exists |
| ConversationsApi.FindBothSymmetric | src/app/api/conversations/route.ts:112 | `$all` ignores order |
| ConversationsApi.FindBothStable | src/app/api/conversations/route.ts:111-120 | a conversation added later never shadows one already found, and is found when none was |
| ConversationsApi.SelfChatMatchesAnyConversation | src/app/api/conversations/route.ts:112 | asking for oneself matches any conversation that contains the caller |
| ConversationsApi.Post | src/app/api/conversations/route.ts:90-144 | 401, 400 and 500 change nothing. An existing conversation with the caller and the cast id is returned unchanged; otherwise exactly one `[caller, other]` conversation is added. The other participant comes from the requested user's record |
| ConversationsApi.OpenFromBothSides | src/app/api/conversations/route.ts:111-120 | A opening a chat with B, then B with A, yields one id and at most one new conversation |
| ConversationsApi.FirstOtherUser | src/app/api/conversations/route.ts:43-54 | the looked-up record at the first position that is a participant other than the caller, no earlier record qualifying; none exactly when no record qualifies |
| ConversationsApi.LastMessageOf | src/app/api/conversations/route.ts:55-74 | no reference, or a reference to no stored message, gives an empty last-message view |
| ConversationsApi.LastMessageOfFound | src/app/api/conversations/route.ts:55-74 | a reference to a stored message shows the content, time and sender of the first message with that id |
| ConversationsApi.Mine | src/app/api/conversations/route.ts:24 | exactly the conversations the caller takes part in |
| ConversationsApi.NewerFirstOrders | src/app/api/conversations/route.ts:79 | `lastMessageAt` descending, then `updatedAt` descending, is a total preorder |
| ConversationsApi.Get | src/app/api/conversations/route.ts:11-87 | 401 without session, else the sorted listing |
| ConversationsApi.ListingIsMine | src/app/api/conversations/route.ts:24 | every listed entry is one of the caller's conversations |
| ConversationsApi.ListingComplete | src/app/api/conversations/route.ts:23-80 | every conversation of the caller's is listed |
| ConversationsApi.ListingShowsOthers | src/app/api/conversations/route.ts:43-53 | the participant shown is never the caller |
| ConversationsApi.ListingNewestFirst | src/app/api/conversations/route.ts:79 | sorted newest first; conversations with a last message come before those without |
| UsersApi.AgentsOf | src/app/api/users/route.ts:30-33 | exactly the agent accounts |
| UsersApi.OthersOf | src/app/api/users/route.ts:21-27 | exactly the non-agent accounts other than the caller |
| UsersApi.Listing | src/app/api/users/route.ts:59-81 | agents first, each shown as an agent and online, then real users with their stored `isOnline` |
| UsersApi.ListingAvatars | src/app/api/users/route.ts:65-76 | `avatar \|\| null`: an entry's avatar is null exactly when the stored one is absent or empty, and otherwise the stored one |
| UsersApi.Seeded | src/app/api/users/route.ts:39-49 | the first n seeded accounts |
| UsersApi.SeedAgents | src/app/api/users/route.ts:36-49 | the loop adds all four agent accounts exactly when no agent email is taken; otherwise it stops at the first profile whose email is taken, keeping the accounts before it |
| UsersApi.Get | src/app/api/users/route.ts:10-88 | 401. With agents present: no change, agents then other real users. With none: the four are seeded first, or the first clashing profile gives 500 after seeding those before it |
| UsersApi.TakenStaysTaken | src/models/User.ts:33 | an email taken stays taken when documents are appended |
| UsersApi.SeedClashIsOld | src/app/api/users/route.ts:39-49 | a seeding clash comes from an account that was there before seeding |
| UsersApi.AgentsOfAppend | src/app/api/users/route.ts:30-33 | the agent filter distributes over concatenation |
| UsersApi.OthersOfAppend | src/app/api/users/route.ts:21-24 | the real-user filter distributes over concatenation |
| UsersApi.AgentsOfAgents | src/app/api/users/route.ts:51-54 | a list of agents passes the agent filter whole |
| UsersApi.SeededAccounts | src/app/api/users/route.ts:40-48 | each seeded account is an online agent with its profile's name, email and personality |
| UsersApi.OthersOfAgents | src/app/api/users/route.ts:21-24 | a list of agents has no real users |
| UsersApi.SeedingHappensOnce | src/app/api/users/route.ts:36-55 | after seeding, the agents listed are exactly the four, so the next GET creates nothing; the real users are unchanged |
| UsersApi.SeededListing | src/app/api/users/route.ts:51-70 | the first GET lists the four agents first, in profile order, online |
| UsersApi.ListingAt | src/app/api/users/route.ts:59-81 | entries before the agent count are agents and online; after it, real users |
| UsersApi.ListingShape | src/app/api/users/route.ts:21-81 | every agent precedes every real user, agents are online, and the caller is never listed as a real user |
| UsersApi.ListingComplete | src/app/api/users/route.ts:21-81 | every agent and every other real user is listed |
| UsersApi.Assigned | src/app/api/users/route.ts:107-109 | an absent field keeps the value, null clears it, a value sets it |
| UsersApi.Edited | src/app/api/users/route.ts:105-113 | only supplied fields change: avatar, location and deviceInfo are set, cleared by null or kept; the name is trimmed by the schema; `lastSeen` is stamped exactly when `isOnline` is supplied; identity fields never change |
| UsersApi.EditedUsers | src/app/api/users/route.ts:115-119 | only the caller's record is edited |
| UsersApi.EditIdempotent | src/app/api/users/route.ts:105-119 | applying the same edit twice is applying it once |
| UsersApi.PresenceEditKeepsProfile | src/app/api/users/route.ts:110-113 | a presence-only edit changes only `isOnline`, `lastSeen` and `updatedAt` |
| UsersApi.EditKeepsUnique | src/app/api/users/route.ts:115-119 | an edit keeps ids and emails unique |
| UsersApi.Patch | src/app/api/users/route.ts:91-129 | 401 changes nothing; otherwise the caller's record is edited, and the reply is the updated record, or null exactly when the session's user is not stored |
| SignupApi.ErrorMessage | src/app/api/auth/signup/route.ts:66-80 | a 'MONGODB_URI' message maps to the configuration error, code 11000 to the duplicate message, and anything else to the error's message or the default |
| SignupApi.LowerStaysLower | src/models/User.ts:34 | a lower-cased string has no upper-case letter |
| SignupApi.TrimKeepsLower | src/models/User.ts:34-35 | trimming keeps a string lower-case |
| SignupApi.NormalEmailIdempotent | src/models/User.ts:34-35 | normalising a stored email again gives it back |
| SignupApi.NormalEmailIgnoresCase | src/app/api/auth/signup/route.ts:28 | emails equal up to case normalise alike |
| SignupApi.Check | src/app/api/auth/signup/route.ts:11-35 | 400 for missing fields, then 400 for a short password, then 500 for a connection fault, then 400 for a taken email, then 500 for a blank email or name after trimming, else proceed |
| SignupApi.Post | src/app/api/auth/signup/route.ts:6-62 | every failed check changes nothing. Otherwise exactly the new account is added and 201 returns only id, email and name. The stored password is the bcrypt digest, never the input |
| SignupApi.AccountHoldsEmail | src/app/api/auth/signup/route.ts:28-42 | after sign-up the email is taken in every letter case |
| SignupApi.SameEmailSignsUpOnce | src/app/api/auth/signup/route.ts:28-35 | a second sign-up with the same email in any case is refused with 400 |
| SignupPage.GetDeviceInfo | src/app/signup/page.tsx:14-39 | each field is the first matching test of its chain, with its fallback, and lies in its fixed set |
| SignupPage.ChromeShadowsSafari | src/app/signup/page.tsx:21-23 | a UA naming both Chrome and Safari reports Chrome |
| SignupPage.IPhoneReportedAsMac | src/app/signup/page.tsx:28-32 | an iPhone UA ("like Mac OS X") reports macOS, never iOS |
| SignupPage.AndroidReportedAsLinux | src/app/signup/page.tsx:28-31 | an Android UA ("Linux; Android") reports Linux |
| SignupPage.ClientError | src/app/signup/page.tsx:60-68 | a mismatch is reported before the length; no error exactly when the passwords match and have at least 6 characters |
| SignupPage.ClientCheckCoversServerLength | src/app/signup/page.tsx:65-68 | a request the client lets through never fails the route's length check |
| SignupPage.SignupForm.constructor | src/app/signup/page.tsx:44-50 | the form starts empty and not loading |
| SignupPage.SignupForm.Submit | src/app/signup/page.tsx:56-70 | the error is cleared; a client error is shown without a request, or loading starts and the request is made |
| SignupPage.SignupForm.Finish | src/app/signup/page.tsx:84-97 | loading always ends. Success redirects. A refusal shows the route's error or a fallback. A thrown request shows the generic error |
| ImageUtils.ValidateFile | src/lib/imageUtils.ts:1-28 | valid exactly when the type is one of the seven and the size is at most 2097152; the error is present exactly when invalid; the type error wins |
| ImageUtils.ValidateFileEdges | src/lib/imageUtils.ts:11-25 | 2097152 bytes pass and 2097153 do not; 'image/PNG' and 'image/gif' are refused |
| Agents.DetectIntent | src/lib/agents.ts:143-174 | help whenever a help keyword occurs; thanks exactly when no help keyword occurs and thank/appreciate does; question exactly when no earlier rule fired and a question keyword occurs; else default |
| Agents.ThanksSubsumed | src/lib/agents.ts:154-158 | "thanks" contains "thank", so it never decides |
| Agents.QuestionWitness | src/lib/agents.ts:162-171 | any question keyword in the text makes the question list match |
| Agents.DetectIntentCaseInsensitive | src/lib/agents.ts:144 | intent detection ignores letter case |
| Agents.RandomItem | src/lib/agents.ts:176-178 | the chosen item is in the list |
| Agents.RandomItemReachesAll | src/lib/agents.ts:176-178 | every item can be chosen |
| Agents.PersonalitiesWellFormed | src/lib/agents.ts:12-141 | every personality has non-empty greetings, keyed replies and defaults |
| Agents.GenerateAgentResponse | src/lib/agents.ts:180-199 | an unknown id gets the fixed reply; a known agent answers from the list for the detected intent, or from the defaults for 'default' |
| Agents.GetAgentGreeting | src/lib/agents.ts:201-209 | a known agent's greeting, else the fixed one |
| Agents.AgentLookupCaseInsensitive | src/lib/agents.ts:181-202 | both entry points ignore the case of the agent id |
| Agents.LookupAsWritten | src/lib/agents.ts:181 | the object lookup finds an own entry exactly for the four keys, and an inherited member exactly for 'constructor' and '__proto__' |
| Agents.GenerateAgentResponseAsWritten | src/lib/agents.ts:180-199 | as written, the reply throws exactly for inherited keys |
| Agents.GetAgentGreetingAsWritten | src/lib/agents.ts:201-209 | as written, the greeting throws exactly for inherited keys |
| Agents.AsWrittenAgreesOffPrototype | src/lib/agents.ts:180-209 | off the inherited keys, as written and corrected agree |
| Agents.ConstructorNameThrows | src/lib/agents.ts:181-185 | the id "Constructor" throws as written; the corrected reply is the fixed one |
| Agents.ProfilesMatchPersonalities | src/lib/agents.ts:211-240 | each profile's lower-cased name is its id and a personality key |
| Agents.ProfileEmailsDistinct | src/lib/agents.ts:211-240 | the four profile emails are distinct |

## Left out

- Socket.IO and Next.js plumbing (server set-up, ping settings, request parsing) and the library's room storage. Rooms are an abstract table that `join` fills and disconnect empties.
- Concurrency: every event and request is one atomic step, and no interleavings are modelled.
  - A duplicate-key race between the signup check and `User.create` cannot occur in this sequential model. `SignupApi.Post` marks that branch unreachable.
  - Delivery order between the REST reply and the socket echo is taken as reply first. `ChatWindow.LateSentEchoIsNoOp` covers that order.
- Real time:
  - `setTimeout` delays are recorded as numbers with the event they fire. `handleTyping`'s 2000 ms timer is an abstract timer id.
  - The 1–3 s delay before an agent's reply is not modelled; that reply's time stamp is a parameter.
  - `new Date()` and `Date.now()` values are parameters.
- Randomness: `Math.random()` in `getRandomItem` is the parameter `pick`, and the properties are stated as list membership.
- bcrypt is a symbolic digest. `Bcrypt(plain, 12)` records the input and the cost.
- MongoDB:
  - Only the 24-hex-digit ObjectId string form is modelled; any other id string leads to the 500 reply.
  - Session ids are taken to be well-formed ids, written in lower case as `ObjectId.toString()` writes them.
  - Stored ids are whatever the store holds; the model does not require them to be in cast (lower-case) form.
  - The `_id` of each `seenBy` sub-document is not modelled.
  - `$sort` order among equal keys is taken as insertion order.
  - `$lookup` yields participants in the collection's order.
  - The connection fault of `connectDB` is modelled only for sign-up, where its message is mapped. Elsewhere it is the generic 500 path, which is not modelled separately.
  - src/lib/mongodb.ts is not part of this model.
- Strings:
  - Case mapping covers ASCII letters only.
  - Lengths count code points rather than UTF-16 units.
  - Request bodies whose fields are not strings (numbers, objects) are not modelled.
- Not modelled from the named components:
  - `handleUserClick`
  - `fileToBase64` (`FileReader`) and the `if (!file) return` of `handleImageSelect`
  - `formatFileSize` (floating point)
  - scrolling, loading flags, rendering and theme
  - the `message.createdAt || new Date()` fallback in the sidebar preview; the model always uses the message's time
- UsersApi.SeedAgents: the `lastSeen` of seeded accounts is the request time, a single parameter.
- Relay.RelayServer.Handle: `error` and `disconnect` are separate methods, not client events.
- SignupApi.Check: request fields are strings or absent, and nothing else.

## Findings

| source | as written | input that shows it | evidently intended | confidence | as-written member | corrected member |
|---|---|---|---|---|---|---|
| src/lib/agents.ts:181-185 | `agentPersonalities[agentId.toLowerCase()]` on a plain object literal finds members inherited from `Object.prototype`; the `!personality` test passes; `defaultResponses` and `responses` read off the inherited function are undefined, so `responses[intent]`, or `getRandomItem(undefined)` reading `.length`, throws a TypeError | an agent named "Constructor" (lower-cased to "constructor") and any message | only the four own keys are agents; every other id gets "Hi! I'm here to chat with you." | high, not executed | Agents.GenerateAgentResponseAsWritten (shown by Agents.ConstructorNameThrows) | Agents.GenerateAgentResponse (agreement elsewhere: Agents.AsWrittenAgreesOffPrototype) |
| src/lib/agents.ts:202-206 | the same lookup in `getAgentGreeting` gets undefined for `greetings` off an inherited member, and `getRandomItem` throws reading its `.length` | agent id "Constructor" | every other id gets "Hello! How can I help you today?" | high, not executed | Agents.GetAgentGreetingAsWritten (shown by Agents.ConstructorNameThrows) | Agents.GetAgentGreeting (agreement elsewhere: Agents.AsWrittenAgreesOffPrototype) |
