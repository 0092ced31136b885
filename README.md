# chatify-frontend state rules in Dafny

chatify-frontend is the React client of a chat application. The model covers the state-update rules that sit inside its components and hooks, with rendering and network calls separated out:

- **The chat tab's message window** (`ChatTab.jsx`) and its pagination guard:
  - fetched pages are merged in, older pages before and the first page after;
  - live events are applied: an insert deduplicated by `_id`, an edit merged with `isEdited`, a delete filtered out, a read receipt that marks read the messages I sent and the friend has read;
  - `loadingRef`, `hasMoreRef` and `pageRef` gate the loading of older pages on scroll;
  - an outgoing attachment is classified by its MIME prefix.
- **The unread map** (`useUnreadCounts.jsx`). A map from chat id to `{hasUnread, senderId}`:
  - built from the server's snapshot;
  - updated by live events;
  - cleared for a chat when that chat is opened.
- **The chat-room subscription hook** in both versions (`ChatTabSocket.jsx`, `ChatTabSocket.js`):
  - the `joined` flag is driven by mount, `connect`, `reconnect` and cleanup;
  - JOIN and LEAVE are emitted;
  - only events of the subscribed chat are forwarded.
- **The two friend-request panels** (`RequestHangler.jsx`, `CommingRequests.jsx`): list updates keyed by `requestId`, the "new requests" badge, and which lists each tab fetches.
- **Smaller rules**:
  - the selection toggle and the create call of the create-chat modal;
  - the action table of a user card;
  - the send guard and `isSending` lifecycle of the composer;
  - the friend-status patch and the query guards of the three search views;
  - the login and logout reducers of the session slice.

How the model is built:

- Pure updaters (`filter`, `map`, spread) are functions over sequences and maps.
- Components whose state slots or refs change step by step are classes. Each method states the whole new state in terms of the old one.
- Each awaited service call is split into a method that dispatches it and a method that receives its outcome. The outcome is a parameter, so the model can state what happens while a call is in flight.

Modules, one per source concept:

| module | file | models |
|---|---|---|
| `Common` | common.dfy | `Option`, the `filter` of arrays, ECMAScript `trim`, `startsWith` |
| `MessageWindow` | messages.dfy | the message window updaters and the outgoing message form of `ChatTab.jsx` |
| `ChatTabState` | chat_tab.dfy | the pagination refs and handlers of `ChatTab.jsx` |
| `UnreadCounts` | unread.dfy | `useUnreadCounts.jsx` |
| `ChatSocket` | chat_socket.dfy | `ChatTabSocket.jsx` and `ChatTabSocket.js` |
| `Requests`, `RequestHandler`, `IncomingRequests` | friend_requests.dfy | the request lists, `RequestHangler.jsx`, `CommingRequests.jsx` |
| `CreateChat` | create_chat.dfy | `CreateChatModal.jsx` |
| `UserCard` | user_card.dfy | `UserCard.jsx` |
| `ChatInput` | chat_input.dfy | `ChatInput.jsx` |
| `UserSearch` | search.dfy | the three `SearchResult.jsx` files |
| `Auth` | auth.dfy | `AuthSlice.js` |

## Model

| member | source | states |
|---|---|---|
| Common.TrimEmptyIffBlank | src/components/chatTab/ChatInput.jsx:28-29 | the trimmed text is empty exactly when the text consists of ECMAScript white space only |
| MessageWindow.InsertMessage | src/components/chatTab/ChatTab.jsx:194-196 | the old window is a prefix of the result, the arrived id is present afterwards, and at most the one arrived message is added, at the tail |
| MessageWindow.InsertDeduplicates | src/components/chatTab/ChatTab.jsx:194-196 | an id already in the window leaves it unchanged; a new id is appended at the tail |
| MessageWindow.InsertIdempotent | src/components/chatTab/ChatTab.jsx:194-196 | inserting the same message twice equals inserting it once |
| MessageWindow.InsertKeepsUnique | src/components/chatTab/ChatTab.jsx:194-196 | a window without duplicate ids keeps none after an insert |
| MessageWindow.RemoveMessage | src/components/chatTab/ChatTab.jsx:179 | no entry with the deleted id survives, every other entry survives, and nothing new appears |
| MessageWindow.RemoveExact | src/components/chatTab/ChatTab.jsx:105 | each message with another id keeps its exact number of occurrences; messages with the deleted id drop to zero |
| MessageWindow.RemoveKeepsOrder | src/components/chatTab/ChatTab.jsx:179 | deleting from a concatenation deletes from each part, so the survivors keep their relative order |
| MessageWindow.RemoveAbsent | src/components/chatTab/ChatTab.jsx:179 | deleting an id that is not in the window is a no-op |
| MessageWindow.RemoveIdempotent | src/components/chatTab/ChatTab.jsx:179 | repeating a delete changes nothing more |
| MessageWindow.RemoveKeepsUnique | src/components/chatTab/ChatTab.jsx:179 | a delete keeps a window without duplicate ids |
| MessageWindow.ApplyPatch | src/components/chatTab/ChatTab.jsx:187 | field by field, a value the patch carries overrides the message's and an absent one keeps it; the `_id` is kept and `isEdited` is forced to true |
| MessageWindow.EditMessage | src/components/chatTab/ChatTab.jsx:115-119 | the window keeps its length and every `_id`; non-matching entries are unchanged; each matching entry becomes that entry merged with the patch, marked edited |
| MessageWindow.EditShowsNewText | src/components/chatTab/ChatTab.jsx:185-189 | an edit carrying a text makes every entry with that id show the text, marked edited, and keeps its sender and chat unless the edit carries them |
| MessageWindow.EditAbsent | src/components/chatTab/ChatTab.jsx:185-189 | an edit for an id not in the window leaves it unchanged |
| MessageWindow.EditIdempotent | src/components/chatTab/ChatTab.jsx:185-189 | applying the same edit twice equals applying it once |
| MessageWindow.EditKeepsUnique | src/components/chatTab/ChatTab.jsx:185-189 | an edit keeps a window without duplicate ids |
| MessageWindow.ApplyLive | src/components/chatTab/ChatTab.jsx:175 | an event of another chat leaves the window unchanged |
| MessageWindow.LiveEditMerges | src/components/chatTab/ChatTab.jsx:184-189 | a live edit of the open chat merges the event, its `chatId` included, into each entry with the edited id, so a carried text is shown |
| MessageWindow.LiveIdempotent | src/components/chatTab/ChatTab.jsx:173-196 | every live event (insert, edit, delete), replayed, gives the window its first application gave |
| MessageWindow.LiveKeepsUnique | src/components/chatTab/ChatTab.jsx:173-196 | no live event introduces a duplicate id |
| MessageWindow.ApplyReceipt | src/components/chatTab/ChatTab.jsx:227-242 | the receipt updater keeps the window's length |
| MessageWindow.ReceiptEffect | src/components/chatTab/ChatTab.jsx:224-241 | only `isRead` changes, never from true to false; a message ends up read iff it was, or it is mine, the reader is the friend and its id is listed |
| MessageWindow.ReceiptNoOp | src/components/chatTab/ChatTab.jsx:215-222 | a receipt for another chat, or with a missing, empty or non-array id list, changes nothing |
| MessageWindow.ReceiptKeepsUnique | src/components/chatTab/ChatTab.jsx:227-242 | a receipt keeps a window without duplicate ids |
| MessageWindow.MergePage | src/components/chatTab/ChatTab.jsx:68-74 | a prepended page is the prefix and the old window the suffix; otherwise the old window is the prefix and the page the suffix |
| MessageWindow.MergeMayDuplicate | src/components/chatTab/ChatTab.jsx:69-71 | a page that repeats a loaded id leaves duplicate ids: pages are not deduplicated |
| MessageWindow.KindOfMime | src/components/chatTab/ChatTab.jsx:261-265 | image, video and audio exactly for their MIME prefixes, tested in that order; a generic file otherwise, never text |
| MessageWindow.KindOfSend | src/components/chatTab/ChatTab.jsx:259-266 | text exactly when there is no file; otherwise the file's MIME kind |
| MessageWindow.ComposeSend | src/components/chatTab/ChatTab.jsx:252-270 | nothing is sent iff the text is absent or blank and there is no file; otherwise the form has the chat id, the file, the type, and the trimmed text iff it is non-blank |
| ChatTabState.ChatTab.constructor | src/components/chatTab/ChatTab.jsx:29-40 | empty window, `hasMore` set, no fetch in flight, page 1 |
| ChatTabState.ChatTab.StartLoad | src/components/chatTab/ChatTab.jsx:60-62 | a fetch starts iff there is a chat and none is in flight; the request carries the chat, page and `PAGE_SIZE` 15 |
| ChatTabState.ChatTab.CompleteLoad | src/components/chatTab/ChatTab.jsx:64-87 | a page is merged into the current window, `hasMore` becomes the reply's flag or false, and the friend's messages are marked read; either way the in-flight flag is cleared |
| ChatTabState.ChatTab.Open | src/components/chatTab/ChatTab.jsx:92-98 | with a chat: empty window, `hasMore`, page 1, and page 1 requested, unless a fetch is still in flight |
| ChatTabState.ChatTab.HandleScroll | src/components/chatTab/ChatTab.jsx:131-155 | with a container, no fetch in flight, scrollTop < 120 and more pages, the page advances by one and that page is requested for prepending; otherwise nothing changes |
| ChatTabState.ArrivalReadRequest | src/components/chatTab/ChatTab.jsx:199-203 | a call is made iff `sender?._id` equals `friend?._id` (both may be undefined) and the chat has a friend; its receiver is `friend?._id` |
| ChatTabState.ObjectsMarkOnlyFriendsMessages | src/components/chatTab/ChatTab.jsx:199-203 | with user objects on both sides, exactly the friend's messages are marked read, for the friend |
| ChatTabState.PlainIdsMarkEveryMessage | src/components/chatTab/ChatTab.jsx:199-203 | with plain ids on both sides, every new message is marked read with an undefined receiver |
| ChatTabState.MixedShapesNeverMark | src/components/chatTab/ChatTab.jsx:199-203 | with a user object on one side and a plain id on the other, nothing is marked read, even for the friend's own message |
| ChatTabState.ChatTab.HandleSocketMessage | src/components/chatTab/ChatTab.jsx:173-206 | an event of the open chat is applied to the window; a new message adds the call `ArrivalReadRequest` gives, if any; nothing else adds a call |
| ChatTabState.OwnMessageMarkedWithPlainIds | src/components/chatTab/ChatTab.jsx:199-203 | a scenario: with plain ids, the user's own new message produces a mark-read call with an undefined receiver |
| ChatTabState.ChatTab.HandleReadUpdate | src/components/chatTab/ChatTab.jsx:209-245 | a receipt is applied with the user's and the friend's ids; a missing one is ignored |
| ChatTabState.ChatTab.DeleteMessage | src/components/chatTab/ChatTab.jsx:101-109 | the message leaves the window only after a confirmed delete |
| ChatTabState.ChatTab.EditMessage | src/components/chatTab/ChatTab.jsx:112-123 | the server's reply is merged into the matching entries; a failed edit changes nothing |
| ChatTabState.SwitchWhileLoading | src/components/chatTab/ChatTab.jsx:58-98 | switching chats while page 1 is in flight requests no page for the new chat, and the old chat's page lands in the new chat's window |
| ChatTabState.FailedPageIsSkipped | src/components/chatTab/ChatTab.jsx:81-87 | a scenario: after page 2 fails, the next scroll requests page 3, so page 2 is never loaded |
| ChatTabState.ScrollTwiceWhileLoading | src/components/chatTab/ChatTab.jsx:131-147 | two scrolls to the top during one load request one older page, page 2 |
| UnreadCounts.SnapshotOf | src/sockets/useUnreadCounts.jsx:21-29 | every entry of the built map is unread and from someone other than the user |
| UnreadCounts.SnapshotContents | src/sockets/useUnreadCounts.jsx:22-29 | a chat is in the map iff some item from someone else names it; its sender is the one of the last such item |
| UnreadCounts.UnreadTracker.constructor | src/sockets/useUnreadCounts.jsx:8-9 | the map starts empty |
| UnreadCounts.UnreadTracker.LoadSnapshot | src/sockets/useUnreadCounts.jsx:12-37 | nothing is fetched without a token or a user; a snapshot replaces the map by its items from others; a failure keeps the map |
| UnreadCounts.UnreadTracker.HandleUnread | src/sockets/useUnreadCounts.jsx:46-71 | own messages are ignored; the open chat's entry is removed; any other chat is marked unread and passed on; no other key changes |
| UnreadCounts.UnreadTracker.OpenChat | src/sockets/useUnreadCounts.jsx:78-85 | the opened chat's entry, and only that one, is removed |
| UnreadCounts.OpenClearsOnlyThatChat | src/sockets/useUnreadCounts.jsx:46-85 | two peers' messages mark two chats, my own marks none, and opening one chat clears only its entry |
| ChatSocket.Route | src/sockets/ChatTabSocket.jsx:23-33 | only the subscribed chat's messages, edits, deletes and receipts are passed on, the receipt only to a given handler; a received message reaches `onMessage` as itself and a receipt reaches `onReadUpdate` as itself; a notice arises only for another chat's `unread:update` in the version that has it |
| ChatSocket.OtherChatNotForwarded | src/sockets/ChatTabSocket.js:20-29 | an event of another chat never reaches `onMessage` or `onReadUpdate`, in either version |
| ChatSocket.EditAndDeleteReshaped | src/sockets/ChatTabSocket.jsx:24-28 | the subscribed chat's edits arrive as edits and its deletes as `{_id, chatId, isDelete}` |
| ChatSocket.UnreadUpdateNotice | src/sockets/ChatTabSocket.jsx:31-39 | the version with the notice raises it exactly for other chats; the version without it ignores `unread:update` |
| ChatSocket.JoinsOnConnect | src/sockets/ChatTabSocket.js:36-43 | the waiting `connect` listeners emit at most one JOIN, for the first of them, and only when the flag is clear |
| ChatSocket.ChatRoomSocket.constructor | src/sockets/ChatTabSocket.jsx:7-9 | not joined, nothing registered or emitted |
| ChatSocket.ChatRoomSocket.Join | src/sockets/ChatTabSocket.jsx:41-45 | exactly one JOIN when the flag is clear, none when it is set; the flag ends set |
| ChatSocket.ChatRoomSocket.Setup | src/sockets/ChatTabSocket.jsx:19-47 | with a socket and a chat the handlers are registered and the room is joined now if connected, or on the first `connect` otherwise; without either nothing happens |
| ChatSocket.ChatRoomSocket.OnConnect | src/sockets/ChatTabSocket.js:42-43 | every waiting `connect` listener fires once and is removed, emitting what `JoinsOnConnect` says |
| ChatSocket.ChatRoomSocket.OnDisconnect | src/sockets/ChatTabSocket.jsx:41-53 | a dropped transport clears `connected` and leaves the joined flag as it is |
| ChatSocket.ChatRoomSocket.OnReconnect | src/sockets/ChatTabSocket.js:45-49 | while registered, a reconnect emits exactly one JOIN and sets the flag |
| ChatSocket.ChatRoomSocket.Cleanup | src/sockets/ChatTabSocket.jsx:55-65 | LEAVE exactly when joined, the flag cleared, the handlers removed; a waiting `connect` listener stays |
| ChatSocket.ChatRoomSocket.OnEvent | src/sockets/ChatTabSocket.js:20-34 | a registered handler delivers what `Route` says; with nothing registered nothing is delivered |
| ChatSocket.DeferredJoinThenReconnect | src/sockets/ChatTabSocket.jsx:41-53 | mounting before connect then connecting twice joins once; a reconnect joins once more |
| ChatSocket.CleanupLeavesOnce | src/sockets/ChatTabSocket.js:51-54 | leaving after a join emits one LEAVE, and a second cleanup emits nothing |
| ChatSocket.NothingWithoutSocketOrChat | src/sockets/ChatTabSocket.js:16-18 | without a socket or a chat id nothing is emitted or delivered |
| ChatSocket.SwitchBeforeConnect | src/sockets/ChatTabSocket.jsx:47 | switching from A to B before the first connect joins A only, and B's listener finds the flag set |
| Requests.AfterFetch | src/components/friendRequest/CommingRequests.jsx:16-17 | a reply replaces the list, `[]` for missing data; a failure keeps it |
| Requests.RemoveRequest | src/components/friendRequest/CommingRequests.jsx:56 | no entry with the id survives, every other one does, and nothing new appears |
| Requests.RemoveRequestExact | src/components/friendRequest/CommingRequests.jsx:66 | entries with other ids keep their exact number of occurrences; the removed id drops to zero |
| Requests.RemoveRequestKeepsOrder | src/components/friendRequest/RequestHangler.jsx:59 | removal distributes over concatenation, so the survivors keep their order |
| Requests.RemoveAbsentRequest | src/components/friendRequest/RequestHangler.jsx:69 | removing an absent id is a no-op |
| Requests.SetStatus | src/components/friendRequest/RequestHangler.jsx:88-94 | the sent list keeps its length |
| Requests.SetStatusEffect | src/components/friendRequest/RequestHangler.jsx:88-94 | only matching `requestId`s change, and only in `friendRequestStatus`, which becomes the payload's status |
| RequestHandler.PanelNeverSubscribesAsWritten | src/components/friendRequest/RequestHangler.jsx:15 | as written, the panel's socket hook never registers, whatever the session |
| RequestHandler.SignedInPanelSubscribes | src/sockets/FriendRequestSocket.js:6-9 | with the corrected token the hook registers iff the session has a non-empty access token and a socket exists; never after logout |
| RequestHandler.FetchesFor | src/components/friendRequest/RequestHangler.jsx:115-121 | the sent tab fetches only the sent list; any other tab fetches incoming and friends, not sent |
| RequestHandler.DisplayedIsFetched | src/components/friendRequest/RequestHangler.jsx:202-206 | the list each tab shows is among the lists its effect fetches |
| RequestHandler.FriendRequests.constructor | src/components/friendRequest/RequestHangler.jsx:8-13 | friends tab, empty lists, no badge |
| RequestHandler.FriendRequests.Subscribe | src/components/friendRequest/RequestHangler.jsx:112 | the panel listens iff the hook's guard holds for the corrected token |
| RequestHandler.FriendRequests.Deliver | src/sockets/FriendRequestSocket.js:12-24 | an event changes nothing unless the panel listens; while it listens, the new state is `HandleSocketUpdate`'s: a new request goes to the front and raises the badge; a status update patches `sent`, appends an accepted payload to `friends`, removes the request from `incoming` and clears the badge when at most one was listed; any other event type changes nothing |
| RequestHandler.FriendRequests.FetchIncoming | src/components/friendRequest/RequestHangler.jsx:18-29 | the reply replaces the list and the badge shows iff the reply holds requests; a failure changes nothing |
| RequestHandler.FriendRequests.FetchSent | src/components/friendRequest/RequestHangler.jsx:31-41 | the reply replaces the sent list; a failure keeps it |
| RequestHandler.FriendRequests.FetchFriends | src/components/friendRequest/RequestHangler.jsx:43-53 | the reply replaces the friends list; a failure keeps it |
| RequestHandler.FriendRequests.Resolve | src/components/friendRequest/RequestHangler.jsx:56-74 | a confirmed call removes the request and clears the badge when at most one request was listed; an unconfirmed one changes nothing |
| RequestHandler.FriendRequests.AcceptRequest | src/components/friendRequest/RequestHangler.jsx:56-64 | the same for accept |
| RequestHandler.FriendRequests.RejectRequest | src/components/friendRequest/RequestHangler.jsx:66-74 | the same for reject |
| RequestHandler.FriendRequests.HandleSocketUpdate | src/components/friendRequest/RequestHangler.jsx:77-110 | NEW_REQUEST prepends and raises the badge; STATUS_UPDATE patches sent, adds an accepted payload to friends, removes from incoming and clears the badge when at most one was listed; other types change nothing |
| RequestHandler.FriendRequests.Mount | src/components/friendRequest/RequestHangler.jsx:115-121 | the first render fetches what the initial tab needs |
| RequestHandler.FriendRequests.SelectTab | src/components/friendRequest/RequestHangler.jsx:169-172 | the tab is set, selecting incoming clears the badge, and lists are fetched only when the tab changes |
| RequestHandler.RequestThenAccepted | src/components/friendRequest/RequestHangler.jsx:81-107 | a new request accepted by the other side leaves incoming and joins friends, and the badge stays for the request still listed |
| IncomingRequests.FetchFor | src/components/friendRequest/CommingRequests.jsx:73-77 | incoming and sent fetch their own list; every other tab fetches friends |
| IncomingRequests.FetchesWhatIsShown | src/components/friendRequest/CommingRequests.jsx:147-151 | every tab fetches exactly the list it shows |
| IncomingRequests.IncomingPanel.constructor | src/components/friendRequest/CommingRequests.jsx:6-10 | incoming tab, empty lists |
| IncomingRequests.IncomingPanel.FetchIncoming | src/components/friendRequest/CommingRequests.jsx:13-23 | the reply replaces the list; a failure keeps it |
| IncomingRequests.IncomingPanel.FetchSent | src/components/friendRequest/CommingRequests.jsx:26-36 | the reply replaces the list; a failure keeps it |
| IncomingRequests.IncomingPanel.FetchFriends | src/components/friendRequest/CommingRequests.jsx:39-50 | the reply replaces the list; a failure keeps it |
| IncomingRequests.IncomingPanel.AcceptRequest | src/components/friendRequest/CommingRequests.jsx:53-60 | only a successful call removes the request |
| IncomingRequests.IncomingPanel.RejectRequest | src/components/friendRequest/CommingRequests.jsx:63-70 | only a successful call removes the request |
| IncomingRequests.IncomingPanel.Mount | src/components/friendRequest/CommingRequests.jsx:73-77 | the first render fetches the initial tab's list, the incoming requests |
| IncomingRequests.IncomingPanel.SelectTab | src/components/friendRequest/CommingRequests.jsx:120 | the tab is set and its list fetched only when it changes |
| CreateChat.Toggle | src/components/createChat/CreateChatModal.jsx:21-25 | the id is selected afterwards iff it was not before; no other id changes membership; a new id is appended at the end |
| CreateChat.ToggleOffClosesGap | src/components/createChat/CreateChatModal.jsx:23 | deselecting an id removes just that id: the ids before and after it keep their order |
| CreateChat.ToggleTwice | src/components/createChat/CreateChatModal.jsx:21-25 | toggling twice restores the set of selected ids, and the exact selection when the id was not selected |
| CreateChat.ToggleKeepsDistinct | src/components/createChat/CreateChatModal.jsx:21-25 | a toggle keeps a duplicate-free selection duplicate-free |
| CreateChat.CallFor | src/components/createChat/CreateChatModal.jsx:29-37 | group mode calls with the name and the whole selection; private mode makes no call for an empty selection, else a call for the first id |
| CreateChat.CreateChatModal.constructor | src/components/createChat/CreateChatModal.jsx:7-10 | no friends, no selection, private mode, empty name |
| CreateChat.CreateChatModal.LoadFriends | src/components/createChat/CreateChatModal.jsx:13-19 | an open modal replaces its friends by the reply, `[]` when missing |
| CreateChat.CreateChatModal.HandleSelect | src/components/createChat/CreateChatModal.jsx:21-25 | the selection is toggled and stays duplicate-free |
| CreateChat.CreateChatModal.SetGroup | src/components/createChat/CreateChatModal.jsx:9 | the group switch is set |
| CreateChat.CreateChatModal.SetGroupName | src/components/createChat/CreateChatModal.jsx:10 | the group name is set |
| CreateChat.CreateChatModal.HandleCreate | src/components/createChat/CreateChatModal.jsx:27-50 | the call is the one `CallFor` names; a successful call empties the selection and name and leaves group mode; no call or a failed one changes nothing |
| CreateChat.PrivateUsesFirst | src/components/createChat/CreateChatModal.jsx:35-37 | an empty selection makes no call; a two-id selection calls for the first id only and is then reset |
| UserCard.Actions | src/components/userCard/UserCard.jsx:34-105 | one or two buttons; exactly Pending and Friends are disabled |
| UserCard.IncomingPendingOffersChoice | src/components/userCard/UserCard.jsx:35-51 | an incoming pending request yields Accept and Reject |
| UserCard.OutgoingPendingIsDisabled | src/components/userCard/UserCard.jsx:55-63 | another pending card yields one disabled Pending |
| UserCard.FollowCases | src/components/userCard/UserCard.jsx:65-103 | Follow alone iff the status is neither pending nor accepted (rejected, unknown or absent) |
| UserCard.AcceptedShowsFriends | src/components/userCard/UserCard.jsx:75-92 | accepted yields Friends first, and Message iff `onOpenChat` is given |
| UserCard.ButtonsNeedTheirStatus | src/components/userCard/UserCard.jsx:35-92 | Message only for an accepted friend with `onOpenChat`; Accept/Reject iff incoming and pending |
| UserCard.IncomingFallsThrough | src/components/userCard/UserCard.jsx:54 | a non-pending incoming card gets the same buttons as any other card |
| ChatInput.TrimmedText | src/components/chatTab/ChatInput.jsx:28 | absent iff the field is; otherwise the trim, empty iff blank |
| ChatInput.PreviewKind | src/components/chatTab/ChatInput.jsx:43-101 | no preview without a file; image, video, audio exactly by MIME prefix, else a generic file |
| ChatInput.PreviewMatchesSentKind | src/components/chatTab/ChatInput.jsx:48-101 | the previewed kind is the `messageType` the chat tab sends for the same file |
| ChatInput.Composer.constructor | src/components/chatTab/ChatInput.jsx:9-10 | no file, not sending |
| ChatInput.Composer.FileSelect | src/components/chatTab/ChatInput.jsx:13-17 | ignored while disabled; otherwise the first chosen file, if any, is selected |
| ChatInput.Composer.RemoveFile | src/components/chatTab/ChatInput.jsx:20-22 | the file is cleared |
| ChatInput.Composer.BeginSend | src/components/chatTab/ChatInput.jsx:25-33 | a send starts iff not disabled, not already sending, and there is a non-blank text or a file; it hands over the trimmed text and the file and raises `isSending` |
| ChatInput.Composer.SendSettled | src/components/chatTab/ChatInput.jsx:33-38 | `isSending` ends false; success resets the form and clears the file; failure keeps both |
| ChatInput.RetryAfterFailure | src/components/chatTab/ChatInput.jsx:26-38 | a failed send keeps the file for the retry; a second submit during a send is ignored |
| UserSearch.PatchStatus | src/components/search/SearchResult.jsx:47-53 | the patch keeps the list's length |
| UserSearch.PatchEffect | src/components/footer/SearchResult.jsx:49-55 | users the event involves get its status; others are unchanged; ids and other fields are kept in place |
| UserSearch.PatchIdempotent | src/components/header/SearchResult.jsx:36-43 | a repeated event changes nothing more |
| UserSearch.PatchUninvolved | src/components/header/SearchResult.jsx:36-43 | an event involving nobody in the list is a no-op |
| UserSearch.PatchConcat | src/components/search/SearchResult.jsx:47-53 | the patch works user by user, so order is preserved |
| UserSearch.UsersOf | src/components/search/SearchResult.jsx:33 | a reply without users yields `[]` |
| UserSearch.OpenChatFor | src/components/search/SearchResult.jsx:61-69 | the chat record plus a friend with exactly the user's `_id`, `fullName`, `email` and `profilePic` |
| UserSearch.OpenChatIgnoresStatus | src/components/search/SearchResult.jsx:63-68 | the friend does not depend on the user's request status |
| UserSearch.SearchResults.constructor | src/components/footer/SearchResult.jsx:10-12 | empty query and list, not loading |
| UserSearch.SearchResults.FetchUsers | src/components/search/SearchResult.jsx:25-32 | a blank term empties the list and fetches nothing; any other term is sent and raises `loading` |
| UserSearch.SearchResults.SearchSettled | src/components/footer/SearchResult.jsx:31-38 | a reply replaces the list (`[]` without users), a failure keeps it; `loading` ends false |
| UserSearch.SearchResults.SetQuery | src/components/footer/SearchResult.jsx:42-44 | the new query is kept; an unchanged or empty query changes nothing else; a changed blank one clears the list and sends nothing; a changed non-blank one is sent, raises `loading` and leaves the list until the reply |
| UserSearch.SearchResults.SetLocation | src/components/search/SearchResult.jsx:20-23 | the URL's `q`, or `""`, becomes the query, with the whole new state as for a typed query |
| UserSearch.SearchResults.Submit | src/components/footer/SearchResult.jsx:61-65 | a non-blank current query is sent again, raising `loading` and leaving the list until the reply; a blank one clears the list and sends nothing |
| UserSearch.SearchResults.OnStatus | src/components/footer/SearchResult.jsx:47-58 | the list is patched by the status event |
| UserSearch.SearchResults.HandleOpenChat | src/components/search/SearchResult.jsx:58-74 | with a reply the chat object of `OpenChatFor` is selected; a failure keeps the selection |
| UserSearch.HeaderResults.constructor | src/components/header/SearchResult.jsx:9-10 | empty list, loading from the start |
| UserSearch.HeaderResults.QueryEffect | src/components/header/SearchResult.jsx:18-31 | nothing is sent for an absent or empty query; any other, blank or not, is sent |
| UserSearch.HeaderResults.SearchSettled | src/components/header/SearchResult.jsx:23-27 | a reply replaces the list, `[]` without users, and `loading` ends false after any attempt |
| UserSearch.HeaderResults.OnStatus | src/components/header/SearchResult.jsx:34-45 | the list is patched by the status event |
| UserSearch.HeaderGuardIsWeaker | src/components/header/SearchResult.jsx:20 | without a query the header spins on; a blank query is sent by the header but not by the other views |
| Auth.LoginOverwrites | src/store/AuthSlice.js:14-19 | login sets `status` and copies user and tokens, whatever the slice held |
| Auth.SecondLoginWins | src/store/AuthSlice.js:14-19 | a second login fully overwrites the first |
| Auth.LogoutIdempotent | src/store/AuthSlice.js:20-25 | logout twice equals logout once |
| Auth.LoginThenLogout | src/store/AuthSlice.js:3-25 | login then logout yields `initialState` from any state |
| Auth.AuthSlice.constructor | src/store/AuthSlice.js:3-8 | the slice starts as `initialState` |
| Auth.AuthSlice.Login | src/store/AuthSlice.js:14-19 | the slice becomes the login state of its payload |
| Auth.AuthSlice.Logout | src/store/AuthSlice.js:20-25 | the slice becomes `initialState` |
| Auth.SessionLifecycle | src/store/AuthSlice.js:3-25 | two logins then a logout: the second session fully replaces the first, and logout restores `initialState` |

## Left out

- The service modules (`auth.js`, `chat.js`, `friends.js`, `messages.js`) are thin HTTP wrappers. Each call is replaced by its outcome, passed as a parameter (a reply or a failure).
- The token-refresh interceptor (`axiosInstance.js`) is left out. It coordinates concurrent requests, cookies and page redirects.
- The socket transport (`socket.js`, socket.io) is replaced by a record of what is emitted and delivered. The model assumes a `reconnect` event reaches the socket's own listeners, as the hook expects.
- Scroll-anchor arithmetic, auto-scroll, `shouldAutoScroll` and `requestAnimationFrame` are DOM work. Only the container's presence and `scrollTop` enter `HandleScroll`.
- ChatTabState.ChatTab.HandleScroll: the source sets `isPrepending` whenever the scroll guard passes, and clears it in a `requestAnimationFrame` after the load settles. The model sets it only when the fetch starts and clears it when the load completes. `hasMoreRef` trails `hasMore` by one effect run; the model keeps one flag for both. Both differences only affect the auto-scroll effect, which is left out.
- ChatSocket.ChatRoomSocket.Setup: whether a socket exists is fixed when the hook is created. In `ChatTabSocket.js` the subscription effect does not depend on `token`, so a socket created after mount is not subscribed until the chat id or a handler changes. The model does not express a socket that appears later.
- Toasts and `console` calls are left out. The other-chat toast is the `OtherChatNotice` delivery; the unread toast is not modelled.
- The fire-and-forget `readMessages` calls are recorded as `ReadRequest` outputs only.
- ChatTabState.ChatTab.HandleSocketMessage: when `sender?._id` and `friend?._id` agree but the chat has no friend, reading `chat.friend._id` throws a `TypeError` inside the socket handler. The model records this as no call; the window update queued before it stays.
- The source's `null` and `undefined` are both `None`. A message's sender and a chat's friend are a `Party`: a user object with its `_id`, a plain id, or missing. A user object without an `_id` is not modelled. The page load and the receipt handler read either shape as its id string (`Party.Key`); the live mark-read test reads `?._id` (`Party.ObjectId`).
- The live edit's other fields (`isEdit`, `_id`) are not modelled as message fields.
- White space for `trim` is the ECMAScript set of single code points. Strings are sequences of code points, with no UTF-16 surrogates.
- The `loading` flags of the friend-request panels are left out. Each fetch is modelled as one atomic step, so the spinner is never observable between steps.
- RequestHandler.FriendRequests.Resolve: `incoming.length` is read from the render that created the handler. The model uses the list current when the call is confirmed, so a list changed during the await is not modelled.
- RequestHandler.FriendRequests.HandleSocketUpdate: the badge rule reads `incoming.length` from the handler's closure, which the socket hook re-registers only after a render. The model reads the list current at each event, so two events handled before a re-render, which both see the older length, are not modelled.
- RequestHandler.FriendRequests.HandleSocketUpdate: the event is taken in the `{type, payload}` shape the handler destructures. The hook hands over the raw socket data, whose shape depends on the server, which is not part of this model.
- The composer's `disabled` attribute on the file input and the send button while sending is not modelled; only the handlers' own guards are.
- ChatInput.Composer.BeginSend: two submits that both read `isSending` before React re-renders are not modelled; the flag is read and set atomically.
- UnreadCounts.UnreadTracker.HandleUnread: the passed-on chat is recorded whether or not an `onSocketMessage` function was given.
- `formatTime`, rendering-only components, the auth forms and Google sign-in, `store.js` persistence, and the theme slice are left out.

## Where the code departs from the design

The chat client's design describes more than its code does. The model follows the code:

- **A failed page is skipped.** `handleScroll` advances the page counter before it loads, and the load's `catch` does not put it back. The next scroll asks for the page after the failed one (`ChatTabState.FailedPageIsSkipped`).
- **No stale-response guard.** A page's response is merged into whatever window is current when it arrives. Opening another chat while page 1 is loading requests nothing for the new chat, because the in-flight flag is still set (`ChatTabState.SwitchWhileLoading`).
- **No deduplication of fetched pages**, no sorting, no last-writer-wins merge, and no recency-ordered chat list (`MessageWindow.MergeMayDuplicate`).
- **The `joined` flag survives a disconnect.** While the chat stays subscribed, only `reconnect` clears it.
- **The `connect` listener is not removed on cleanup.** A chat switch before the socket first connects joins the old chat's room and not the new one (`ChatSocket.SwitchBeforeConnect`).
- **The live mark-read test compares `?._id` on both sides.** It works only when the sender and the friend are both user objects, although the page load and the receipt handler accept plain ids too. With plain ids on both sides every new message, the user's own included, is marked read with an undefined receiver; with mixed shapes nothing is marked read (`ChatTabState.PlainIdsMarkEveryMessage`, `ChatTabState.MixedShapesNeverMark`).
- **Errors never reach the composer.** The chat tab's `onSend` catches a failed send itself, so the composer's failure path (`SendSettled(false)`) is reached only for an `onSend` that throws. With the chat tab, the file is cleared even after a failed send.
- **The header search view guards only against an absent or empty query**, not a blank one. It never stops its spinner when it has no query (`UserSearch.HeaderGuardIsWeaker`).

## Findings

| source | as written | input that shows it | evidently intended | confidence | as-written member | corrected member |
|---|---|---|---|---|---|---|
| src/components/friendRequest/RequestHangler.jsx:15 | the panel selects `token` from the auth slice, which only has `accessToken`, so the token handed to the friend-request socket hook is always undefined and the hook never registers | any signed-in session, e.g. after `authLogin` with a non-empty `accessToken`: NEW_REQUEST and STATUS_UPDATE never reach `handleSocketUpdate`, so the badge and lists never update live | select `accessToken`, as the three search views do | high, not executed | RequestHandler.PanelNeverSubscribesAsWritten | RequestHandler.SignedInPanelSubscribes |
