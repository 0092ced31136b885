/** The stateful side of the chat tab: the loaded message window of the open
    chat and the refs that guard its pagination (`loadingRef`, `hasMoreRef`,
    `pageRef`, `isPrepending`). A history fetch is split into the call that
    dispatches it (`StartLoad`) and the arrival of its response
    (`CompleteLoad`), so that what happens while it is in flight can be stated;
    the response itself is a parameter. The pure window updaters are in module
    MessageWindow. */
module ChatTabState {
  import opened Common
  import opened MessageWindow

  /** Messages per history page. */
  const PAGE_SIZE: nat := 15
  /** A scroll offset below this many pixels counts as near the top. */
  const NEAR_TOP_PX: int := 120

  /** A history fetch `getMessages(chatId, page, PAGE_SIZE)` awaiting its
      response, with what the dispatching `loadMessages` closure captured. */
  datatype PageRequest = PageRequest(chatId: string, friendId: string, page: nat, pageSize: nat, prepend: bool)

  /** The outcome of a history fetch: a failure, or a body whose `messages`
      and `pagination.hasMore` may each be missing. */
  datatype PageResponse = FetchFailed | Fetched(messages: Option<seq<Message>>, hasMore: Option<bool>)

  /** A fire-and-forget `readMessages({chatId, receiverId})` call; the receiver
      is `None` when the handler passes `undefined`. */
  datatype ReadRequest = ReadRequest(chatId: string, receiverId: Option<string>)

  /** The mark-read call `handleSocketMessage` makes for a new message: it
      compares `sender?._id` with `friend?._id`, then passes `friend._id`,
      which throws (so no call is made) when the chat has no friend. */
  function ArrivalReadRequest(chatId: string, sender: Party, friend: Party): (r: Option<ReadRequest>)
    ensures r.Some? <==> sender.ObjectId() == friend.ObjectId() && !friend.NoParty?
    ensures r.Some? ==> r.value.chatId == chatId && r.value.receiverId == friend.ObjectId()
  {
    if sender.ObjectId() != friend.ObjectId() || friend.NoParty? then None
    else Some(ReadRequest(chatId, friend.ObjectId()))
  }

  /** With sender and friend both user objects the test works as meant: the
      friend's messages, and only those, are marked read for the friend. */
  lemma ObjectsMarkOnlyFriendsMessages(chatId: string, s: string, f: string)
    ensures ArrivalReadRequest(chatId, UserObject(s), UserObject(f)).Some? <==> s == f
    ensures s == f ==> ArrivalReadRequest(chatId, UserObject(s), UserObject(f)) == Some(ReadRequest(chatId, Some(f)))
  {
  }

  /** With sender and friend both plain ids, both sides of the test are
      undefined: every new message, the user's own included, is marked read
      with an undefined receiver. */
  lemma PlainIdsMarkEveryMessage(chatId: string, s: string, f: string)
    ensures ArrivalReadRequest(chatId, PlainId(s), PlainId(f)) == Some(ReadRequest(chatId, None))
  {
  }

  /** With one side a user object and the other a plain id, nothing is marked
      read, even for the friend's own message. */
  lemma MixedShapesNeverMark(chatId: string, id: string)
    ensures ArrivalReadRequest(chatId, UserObject(id), PlainId(id)).None?
    ensures ArrivalReadRequest(chatId, PlainId(id), UserObject(id)).None?
  {
  }

  function OptionToSeq<T>(o: Option<T>): (r: seq<T>)
    ensures o.None? <==> r == []
    ensures o.Some? ==> r == [o.value]
  {
    if o.Some? then [o.value] else []
  }

  class ChatTab {
    /** The route's chat id, empty when no chat is selected. */
    var chatId: string
    /** The open chat's friend, in the shape the chat object gives it. */
    var friend: Party
    /** The current user's id as a string, empty when signed out. */
    var myId: string
    var messages: seq<Message>
    /** `hasMore` and its mirror `hasMoreRef`. */
    var hasMore: bool
    /** `loadingRef`: a history fetch is in flight. */
    var loading: bool
    /** `pageRef`: the last page requested. */
    var page: nat
    /** A scroll-triggered (prepending) fetch has not settled yet. */
    var isPrepending: bool
    /** The fetch in flight, if any. */
    var inFlight: Option<PageRequest>
    /** Every mark-read call issued so far, oldest first. */
    var readRequests: seq<ReadRequest>

    ghost predicate Valid()
      reads this
    {
      && (loading <==> inFlight.Some?)
      && (inFlight.Some? ==> inFlight.value.pageSize == PAGE_SIZE)
      && (isPrepending ==> inFlight.Some? && inFlight.value.prepend)
      && page >= 1
    }

    /** The state on first render, before any effect has run. */
    constructor (myId: string)
      ensures Valid()
      ensures this.myId == myId && chatId == "" && friend == NoParty
      ensures messages == [] && hasMore && !loading && page == 1 && !isPrepending
      ensures inFlight == None && readRequests == []
    {
      this.myId := myId;
      chatId, friend := "", NoParty;
      messages, hasMore, loading, page, isPrepending := [], true, false, 1, false;
      inFlight, readRequests := None, [];
    }

    /** `loadMessages(p, prepend)` up to its `await`: nothing happens without a
        chat or while a fetch is in flight; otherwise the fetch is dispatched
        and the in-flight flag set. */
    method StartLoad(p: nat, prepend: bool) returns (started: bool)
      requires Valid()
      modifies this`loading, this`inFlight
      ensures Valid()
      ensures started <==> old(chatId) != "" && !old(loading)
      ensures started ==> loading && inFlight == Some(PageRequest(chatId, friend.Key(), p, PAGE_SIZE, prepend))
      ensures !started ==> loading == old(loading) && inFlight == old(inFlight)
    {
      if chatId == "" || loading {
        return false;
      }
      loading := true;
      inFlight := Some(PageRequest(chatId, friend.Key(), p, PAGE_SIZE, prepend));
      started := true;
    }

    /** The rest of `loadMessages`, when the response of the fetch in flight
        arrives. A page is merged into whatever window is current (there is no
        check that the chat is still the one the fetch was for), `hasMore`
        becomes the response's flag or false, and the friend's messages are
        marked read. Success or failure, the in-flight flag is cleared, and a
        scroll-triggered fetch ends the prepending phase. */
    method CompleteLoad(resp: PageResponse)
      requires Valid() && inFlight.Some?
      modifies this`messages, this`hasMore, this`loading, this`inFlight, this`readRequests, this`isPrepending
      ensures Valid()
      ensures !loading && inFlight == None && !isPrepending
      ensures resp.FetchFailed? ==>
        messages == old(messages) && hasMore == old(hasMore) && readRequests == old(readRequests)
      ensures resp.Fetched? ==>
        && messages == MergePage(old(messages), resp.messages.GetOr([]), old(inFlight).value.prepend)
        && hasMore == resp.hasMore.GetOr(false)
        && readRequests == old(readRequests) +
             (if old(inFlight).value.friendId != ""
              then [ReadRequest(old(inFlight).value.chatId, Some(old(inFlight).value.friendId))]
              else [])
    {
      var req := inFlight.value;
      if resp.Fetched? {
        messages := MergePage(messages, resp.messages.GetOr([]), req.prepend);
        hasMore := resp.hasMore.GetOr(false);
        if req.friendId != "" {
          readRequests := readRequests + [ReadRequest(req.chatId, Some(req.friendId))];
        }
      }
      loading := false;
      inFlight := None;
      isPrepending := false;
    }

    /** The effect that runs when the chat changes: with a chat, the window is
        emptied, `hasMore` set, the page counter reset to 1 and page 1 loaded
        (which does nothing while an earlier fetch is still in flight). */
    method Open(newChatId: string, newFriend: Party) returns (started: bool)
      requires Valid()
      modifies this`chatId, this`friend, this`messages, this`hasMore, this`page, this`loading, this`inFlight
      ensures Valid()
      ensures chatId == newChatId && friend == newFriend
      ensures newChatId == "" ==>
        messages == old(messages) && hasMore == old(hasMore) && page == old(page)
      ensures newChatId != "" ==> messages == [] && hasMore && page == 1
      ensures started <==> newChatId != "" && !old(loading)
      ensures started ==> inFlight == Some(PageRequest(newChatId, newFriend.Key(), 1, PAGE_SIZE, false))
      ensures !started ==> inFlight == old(inFlight) && loading == old(loading)
    {
      chatId, friend := newChatId, newFriend;
      started := false;
      if newChatId == "" {
        return;
      }
      messages, hasMore, page := [], true, 1;
      started := StartLoad(1, false);
    }

    /** `handleScroll`: only with a container and no fetch in flight; near the
        top with more pages to load, it advances the page counter by one and
        loads that page to prepend it. When that load does not start (no chat),
        its settled promise ends the prepending phase at once. */
    method HandleScroll(hasContainer: bool, scrollTop: int) returns (started: bool)
      requires Valid()
      modifies this`page, this`isPrepending, this`loading, this`inFlight
      ensures Valid()
      ensures started <==>
        hasContainer && !old(loading) && scrollTop < NEAR_TOP_PX && old(hasMore) && chatId != ""
      ensures page == if hasContainer && !old(loading) && scrollTop < NEAR_TOP_PX && old(hasMore)
                      then old(page) + 1 else old(page)
      ensures started ==> isPrepending && inFlight == Some(PageRequest(chatId, friend.Key(), page, PAGE_SIZE, true))
      ensures !started ==> inFlight == old(inFlight) && loading == old(loading) && isPrepending == old(isPrepending)
    {
      started := false;
      if !hasContainer || loading {
        return;
      }
      if scrollTop < NEAR_TOP_PX && hasMore {
        page := page + 1;
        started := StartLoad(page, true);
        isPrepending := started;
      }
    }

    /** `handleSocketMessage`: a live event for the open chat is applied to the
        window; a new message also makes the mark-read call of
        `ArrivalReadRequest`, if any. Nothing happens for a missing event or
        another chat's event. */
    method HandleSocketMessage(ev: Option<LiveEvent>)
      requires Valid()
      modifies this`messages, this`readRequests
      ensures Valid()
      ensures ev.None? ==> messages == old(messages)
      ensures ev.Some? ==> messages == ApplyLive(old(messages), ev.value, chatId)
      ensures ev.None? || !ev.value.Arrived? || ev.value.ChatId() != chatId ==> readRequests == old(readRequests)
      ensures ev.Some? && ev.value.Arrived? && ev.value.ChatId() == chatId ==>
        readRequests == old(readRequests) + OptionToSeq(ArrivalReadRequest(chatId, ev.value.msg.sender, friend))
    {
      if ev.None? || ev.value.ChatId() != chatId {
        return;
      }
      messages := ApplyLive(messages, ev.value, chatId);
      if ev.value.Arrived? {
        var call := ArrivalReadRequest(chatId, ev.value.msg.sender, friend);
        if call.Some? {
          readRequests := readRequests + [call.value];
        }
      }
    }

    /** `handleReadUpdate`: a receipt marks read the messages the current user
        sent that the friend has read. */
    method HandleReadUpdate(data: Option<Receipt>)
      requires Valid()
      modifies this`messages
      ensures Valid()
      ensures data.None? ==> messages == old(messages)
      ensures data.Some? ==> messages == ApplyReceipt(old(messages), data.value, chatId, myId, friend.Key())
    {
      if data.Some? {
        messages := ApplyReceipt(messages, data.value, chatId, myId, friend.Key());
      }
    }

    /** `handleDeleteMessage`: the message leaves the window only once the
        server has confirmed the delete (`deleted`). */
    method DeleteMessage(id: string, deleted: bool)
      requires Valid()
      modifies this`messages
      ensures Valid()
      ensures messages == if deleted then RemoveMessage(old(messages), id) else old(messages)
    {
      if deleted {
        messages := RemoveMessage(messages, id);
      }
    }

    /** `handleEditMessage`: the server's reply (absent on failure) is merged
        into every entry with that id. */
    method EditMessage(id: string, reply: Option<Patch>)
      requires Valid()
      modifies this`messages
      ensures Valid()
      ensures messages == if reply.Some? then MessageWindow.EditMessage(old(messages), id, reply.value) else old(messages)
    {
      if reply.Some? {
        messages := MessageWindow.EditMessage(messages, id, reply.value);
      }
    }
  }

  /** Switching chats while the first page of the previous chat is still in
      flight: page 1 of the new chat is never requested, and the previous
      chat's page lands in the new chat's window. */
  method SwitchWhileLoading(pageOfA: seq<Message>) returns (openChat: string, window: seq<Message>, loadedB: bool)
    ensures openChat == "B" && window == pageOfA && !loadedB
  {
    var tab := new ChatTab("me");
    var loadedA := tab.Open("A", UserObject("friend"));
    assert loadedA;
    loadedB := tab.Open("B", UserObject("friend"));
    tab.CompleteLoad(Fetched(Some(pageOfA), Some(false)));
    openChat, window := tab.chatId, tab.messages;
  }

  /** A chat whose friend and senders arrive as plain ids: the user's own new
      message is marked read, with an undefined receiver. */
  method OwnMessageMarkedWithPlainIds(m: Message) returns (calls: seq<ReadRequest>)
    requires m.chatId == "A" && m.sender == PlainId("me")
    ensures calls == [ReadRequest("A", None)]
  {
    var tab := new ChatTab("me");
    var _ := tab.Open("A", PlainId("friend"));
    tab.CompleteLoad(FetchFailed);
    tab.HandleSocketMessage(Some(Arrived(m)));
    calls := tab.readRequests;
  }

  /** A scroll whose page fails to load still advances the page counter: the
      next scroll asks for the page after it, so the failed page is never
      loaded. */
  method FailedPageIsSkipped() returns (failedPage: nat, nextRequest: Option<PageRequest>)
    ensures failedPage == 2
    ensures nextRequest == Some(PageRequest("A", "friend", 3, PAGE_SIZE, true))
  {
    var tab := new ChatTab("me");
    var _ := tab.Open("A", UserObject("friend"));
    tab.CompleteLoad(Fetched(Some([]), Some(true)));
    var first := tab.HandleScroll(true, 0);
    failedPage := tab.inFlight.value.page;
    tab.CompleteLoad(FetchFailed);
    var second := tab.HandleScroll(true, 0);
    nextRequest := tab.inFlight;
  }

  /** Two scroll-to-top events while the first is still loading request one
      older page, not two. */
  method ScrollTwiceWhileLoading() returns (first: bool, second: bool, lastPage: nat)
    ensures first && !second && lastPage == 2
  {
    var tab := new ChatTab("me");
    var _ := tab.Open("A", UserObject("friend"));
    tab.CompleteLoad(Fetched(Some([]), Some(true)));
    first := tab.HandleScroll(true, 0);
    second := tab.HandleScroll(true, 0);
    lastPage := tab.page;
  }
}
