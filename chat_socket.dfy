/** The chat-room subscription hook (`useChatSocket`), in its two versions:
    the one with an "other chat" notice for `unread:update` events and its
    near-twin without it. The hook registers the event handlers of one chat,
    joins the chat's room once (at once when the socket is connected,
    otherwise on the first `connect`), rejoins on `reconnect`, and on cleanup
    leaves the room if it had joined. The socket is replaced by a record of
    what is emitted on it and of what the handlers deliver to the chat tab. */
module ChatSocket {
  import opened Common
  import opened MessageWindow

  /** Which of the two hook files is modelled: the version with the
      other-chat notice, or the one without it. */
  datatype Variant = WithOtherChatNotice | WithoutOtherChatNotice

  /** What the hook emits on the socket. */
  datatype Emit = JoinChat(chatId: string) | LeaveChat(chatId: string)

  /** A chat event as the server pushes it. */
  datatype SocketEvent =
    | MessageReceived(msg: Message)
    | MessageEdited(chatId: string, id: string, patch: Patch)
    | MessageDeleted(id: string, chatId: string)
    | MessageRead(receipt: Receipt)
    | UnreadUpdate(chatId: string, senderId: string)
  {
    function ChatId(): string {
      match this
      case MessageReceived(m) => m.chatId
      case MessageEdited(c, _, _) => c
      case MessageDeleted(_, c) => c
      case MessageRead(rc) => rc.chatId
      case UnreadUpdate(c, _) => c
    }
  }

  /** What a handler passes on: an event to `onMessage`, a receipt to
      `onReadUpdate`, or the notice that another chat has a new message. */
  datatype Delivery = ToOnMessage(ev: LiveEvent) | ToOnReadUpdate(receipt: Receipt) | OtherChatNotice(chatId: string)

  /** What the registered handlers do with an event while chat `chatId` is
      subscribed. Message, edit, delete and read events are passed on only for
      that chat, an edit reshaped with `isEdit` and a delete reshaped to
      `{_id, chatId, isDelete}`; the receipt only when `onReadUpdate` is given.
      Only the variant with the notice handles `unread:update`, and only for
      other chats. */
  function Route(ev: SocketEvent, chatId: string, variant: Variant, hasReadHandler: bool): (r: Option<Delivery>)
    ensures r.Some? && r.value.ToOnMessage? ==> ev.ChatId() == chatId && r.value.ev.ChatId() == chatId
    ensures r.Some? && r.value.ToOnReadUpdate? ==> ev.ChatId() == chatId && hasReadHandler
    ensures r.Some? && r.value.OtherChatNotice? ==>
      variant == WithOtherChatNotice && ev.UnreadUpdate? && ev.chatId != chatId
    ensures !ev.UnreadUpdate? ==> (r.Some? <==> ev.ChatId() == chatId && (ev.MessageRead? ==> hasReadHandler))
    ensures ev.MessageReceived? && ev.msg.chatId == chatId ==> r == Some(ToOnMessage(Arrived(ev.msg)))
    ensures ev.MessageRead? && ev.receipt.chatId == chatId && hasReadHandler ==> r == Some(ToOnReadUpdate(ev.receipt))
  {
    match ev
    case MessageReceived(m) =>
      if m.chatId == chatId then Some(ToOnMessage(Arrived(m))) else None
    case MessageEdited(c, id, p) =>
      if c == chatId then Some(ToOnMessage(Edited(c, id, p))) else None
    case MessageDeleted(id, c) =>
      if c == chatId then Some(ToOnMessage(Deleted(c, id))) else None
    case MessageRead(rc) =>
      if rc.chatId == chatId && hasReadHandler then Some(ToOnReadUpdate(rc)) else None
    case UnreadUpdate(c, _) =>
      if variant == WithOtherChatNotice && c != chatId then Some(OtherChatNotice(c)) else None
  }

  /** An event of another chat never reaches the chat tab's window or its
      receipt handler: at most it raises the other-chat notice. */
  lemma OtherChatNotForwarded(ev: SocketEvent, chatId: string, variant: Variant, hasReadHandler: bool)
    requires ev.ChatId() != chatId
    ensures Route(ev, chatId, variant, hasReadHandler).None?
      || Route(ev, chatId, variant, hasReadHandler) == Some(OtherChatNotice(ev.ChatId()))
  {
  }

  /** Edits and deletes of the subscribed chat are reshaped, not dropped. */
  lemma EditAndDeleteReshaped(chatId: string, id: string, p: Patch, variant: Variant, hasReadHandler: bool)
    ensures Route(MessageEdited(chatId, id, p), chatId, variant, hasReadHandler) == Some(ToOnMessage(Edited(chatId, id, p)))
    ensures Route(MessageDeleted(id, chatId), chatId, variant, hasReadHandler) == Some(ToOnMessage(Deleted(chatId, id)))
  {
  }

  /** The version without the notice ignores `unread:update` entirely; the
      one with it notifies exactly for the chats that are not subscribed. */
  lemma UnreadUpdateNotice(c: string, sender: string, chatId: string, hasReadHandler: bool)
    ensures Route(UnreadUpdate(c, sender), chatId, WithoutOtherChatNotice, hasReadHandler).None?
    ensures Route(UnreadUpdate(c, sender), chatId, WithOtherChatNotice, hasReadHandler).Some? <==> c != chatId
  {
  }

  /** What the join closures waiting on `connect` emit when it fires, in
      registration order, given the joined flag they find: the first one joins
      its chat when the flag is clear, and every later one sees it set. */
  function JoinsOnConnect(joined: bool, pending: seq<string>): (r: seq<Emit>)
    ensures |r| <= 1
    ensures |r| == 1 <==> !joined && |pending| > 0
    ensures |r| == 1 ==> r[0] == JoinChat(pending[0])
  {
    if joined || pending == [] then [] else [JoinChat(pending[0])]
  }

  class ChatRoomSocket {
    var variant: Variant
    /** A socket exists (the token effect found or created one). */
    var hasSocket: bool
    var connected: bool
    /** The chat id of the latest effect run, empty for none. */
    var chatId: string
    /** `onReadUpdate` was given. */
    var hasReadHandler: bool
    /** The handlers of the latest effect run are registered. */
    var registered: bool
    /** `joinedRef`. */
    var joined: bool
    /** The `socket.once("connect", join)` listeners that have not fired yet,
        by the chat id their closure captured, in registration order. */
    var pendingJoins: seq<string>
    var emitted: seq<Emit>
    var delivered: seq<Delivery>

    ghost predicate Valid()
      reads this
    {
      && (registered ==> hasSocket && chatId != "")
      && (pendingJoins != [] ==> !connected)
    }

    constructor (variant: Variant, hasSocket: bool, connected: bool, hasReadHandler: bool)
      ensures Valid()
      ensures this.variant == variant && this.hasSocket == hasSocket && this.hasReadHandler == hasReadHandler
      ensures this.connected == connected && chatId == ""
      ensures !registered && !joined && pendingJoins == [] && emitted == [] && delivered == []
    {
      this.variant, this.hasSocket, this.connected, this.hasReadHandler := variant, hasSocket, connected, hasReadHandler;
      chatId := "";
      registered, joined := false, false;
      pendingJoins, emitted, delivered := [], [], [];
    }

    /** `join` as the closure for chat `c` runs it: nothing while the joined
        flag is set, otherwise exactly one JOIN for `c`, and the flag is set. */
    method Join(c: string)
      modifies this`joined, this`emitted
      ensures joined
      ensures emitted == old(emitted) + if old(joined) then [] else [JoinChat(c)]
    {
      if joined {
        return;
      }
      emitted := emitted + [JoinChat(c)];
      joined := true;
    }

    /** The effect body for `newChatId`, after the previous run's cleanup:
        with no socket or no chat nothing is registered or emitted; otherwise
        the handlers are registered, and the room is joined at once when the
        socket is connected and on the next `connect` otherwise. */
    method Setup(newChatId: string)
      requires Valid() && !registered
      modifies this`chatId, this`registered, this`joined, this`emitted, this`pendingJoins
      ensures Valid()
      ensures chatId == newChatId
      ensures registered <==> hasSocket && newChatId != ""
      ensures !registered ==> joined == old(joined) && emitted == old(emitted) && pendingJoins == old(pendingJoins)
      ensures registered && connected ==>
        joined && pendingJoins == old(pendingJoins)
        && emitted == old(emitted) + if old(joined) then [] else [JoinChat(newChatId)]
      ensures registered && !connected ==>
        joined == old(joined) && emitted == old(emitted) && pendingJoins == old(pendingJoins) + [newChatId]
    {
      chatId := newChatId;
      if !hasSocket || newChatId == "" {
        return;
      }
      registered := true;
      if connected {
        Join(newChatId);
      } else {
        pendingJoins := pendingJoins + [newChatId];
      }
    }

    /** The socket connects: every pending `once("connect")` listener fires, in
        registration order, and is then gone. */
    method OnConnect()
      requires Valid()
      modifies this`connected, this`joined, this`emitted, this`pendingJoins
      ensures Valid()
      ensures connected && pendingJoins == []
      ensures joined == (old(joined) || old(pendingJoins) != [])
      ensures emitted == old(emitted) + JoinsOnConnect(old(joined), old(pendingJoins))
    {
      var pending := pendingJoins;
      var i := 0;
      while i < |pending|
        invariant 0 <= i <= |pending|
        invariant joined == (old(joined) || i > 0)
        invariant emitted == old(emitted) + JoinsOnConnect(old(joined), pending[..i])
      {
        Join(pending[i]);
        i := i + 1;
      }
      connected := true;
      pendingJoins := [];
    }

    /** The transport drops. The joined flag is left as it is. */
    method OnDisconnect()
      requires Valid()
      modifies this`connected
      ensures Valid() && !connected
    {
      connected := false;
    }

    /** `onReconnect`, registered while the handlers are: the flag is cleared
        and the room joined again, so exactly one JOIN is emitted and the flag
        ends set. */
    method OnReconnect()
      requires Valid()
      modifies this`joined, this`emitted
      ensures Valid()
      ensures registered ==> joined && emitted == old(emitted) + [JoinChat(chatId)]
      ensures !registered ==> joined == old(joined) && emitted == old(emitted)
    {
      if registered {
        joined := false;
        Join(chatId);
      }
    }

    /** The cleanup of the latest effect run: LEAVE only when joined, the flag
        cleared either way, and the handlers unregistered. A `connect` listener
        still waiting is not removed. With nothing registered there is no
        cleanup. */
    method Cleanup()
      requires Valid()
      modifies this`registered, this`joined, this`emitted
      ensures Valid() && !registered
      ensures old(registered) ==>
        !joined && emitted == old(emitted) + if old(joined) then [LeaveChat(chatId)] else []
      ensures !old(registered) ==> joined == old(joined) && emitted == old(emitted)
    {
      if !registered {
        return;
      }
      if joined {
        emitted := emitted + [LeaveChat(chatId)];
      }
      joined := false;
      registered := false;
    }

    /** An event reaches the registered handlers, which pass it on as `Route`
        says; with nothing registered it is not handled. */
    method OnEvent(ev: SocketEvent)
      requires Valid()
      modifies this`delivered
      ensures Valid()
      ensures delivered == old(delivered) +
        (if registered && Route(ev, chatId, variant, hasReadHandler).Some?
         then [Route(ev, chatId, variant, hasReadHandler).value] else [])
    {
      if registered {
        var r := Route(ev, chatId, variant, hasReadHandler);
        if r.Some? {
          delivered := delivered + [r.value];
        }
      }
    }
  }

  /** The room is joined once however often `connect` and `join` are
      attempted while the flag is set: mounting on a disconnected socket and
      then connecting emits one JOIN; a reconnect emits one more. */
  method DeferredJoinThenReconnect(variant: Variant) returns (afterConnect: seq<Emit>, afterReconnect: seq<Emit>)
    ensures afterConnect == [JoinChat("A")]
    ensures afterReconnect == [JoinChat("A"), JoinChat("A")]
  {
    var s := new ChatRoomSocket(variant, true, false, true);
    s.Setup("A");
    s.OnConnect();
    s.OnConnect();
    afterConnect := s.emitted;
    s.OnReconnect();
    afterReconnect := s.emitted;
  }

  /** Leaving the chat after joining emits one LEAVE; leaving again emits
      nothing. */
  method CleanupLeavesOnce(variant: Variant) returns (log: seq<Emit>, joinedAfter: bool)
    ensures log == [JoinChat("A"), LeaveChat("A")] && !joinedAfter
  {
    var s := new ChatRoomSocket(variant, true, true, true);
    s.Setup("A");
    s.Cleanup();
    s.Cleanup();
    log, joinedAfter := s.emitted, s.joined;
  }

  /** Without a socket, or without a chat id, nothing is registered and
      nothing is emitted, whatever arrives. */
  method NothingWithoutSocketOrChat(variant: Variant, ev: SocketEvent) returns (log: seq<Emit>, got: seq<Delivery>)
    ensures log == [] && got == []
  {
    var s := new ChatRoomSocket(variant, false, true, true);
    s.Setup("A");
    s.OnEvent(ev);
    var t := new ChatRoomSocket(variant, true, true, true);
    t.Setup("");
    t.OnEvent(ev);
    t.OnReconnect();
    log, got := s.emitted + t.emitted, s.delivered + t.delivered;
  }

  /** Switching from chat A to chat B before the socket has connected: A's
      `connect` listener survives the cleanup, so the first connect joins A and
      sets the flag, and B's listener then finds the flag set; B's room is not
      joined until a reconnect. */
  method SwitchBeforeConnect(variant: Variant) returns (log: seq<Emit>, open: string, joined: bool)
    ensures log == [JoinChat("A")] && open == "B" && joined
  {
    var s := new ChatRoomSocket(variant, true, false, true);
    s.Setup("A");
    s.Cleanup();
    s.Setup("B");
    s.OnConnect();
    log, open, joined := s.emitted, s.chatId, s.joined;
  }
}
