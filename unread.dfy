/** The unread index of the sidebar: a map from chat id to
    `{hasUnread, senderId}`, filled from a snapshot of the server's unread
    list, updated by live `unread:update` events, and cleared for a chat when
    that chat is opened. The snapshot request and the socket subscription are
    replaced by their results, given as parameters. */
module UnreadCounts {
  import opened Common

  datatype UnreadEntry = UnreadEntry(hasUnread: bool, senderId: string)

  /** One value of the snapshot's `data` object, in `Object.values` order. */
  datatype SnapshotItem = SnapshotItem(chatId: string, senderId: string)

  /** An `unread:update` event `{chatId, senderId, message}` (the message is
      only passed on). */
  datatype UnreadEvent = UnreadEvent(chatId: string, senderId: string)

  /** Every entry is an unread marker left by someone other than the user. */
  ghost predicate WellFormed(m: map<string, UnreadEntry>, userId: string) {
    forall k :: k in m ==> m[k].hasUnread && m[k].senderId != userId
  }

  /** The dictionary the snapshot loop has built after visiting `items` in
      order: an item from someone else writes its chat's key, so a later item
      overwrites an earlier one for the same chat. */
  function SnapshotOf(items: seq<SnapshotItem>, userId: string): (m: map<string, UnreadEntry>)
    ensures WellFormed(m, userId)
  {
    if items == [] then map[]
    else
      var m := SnapshotOf(items[..|items| - 1], userId);
      var it := items[|items| - 1];
      if it.senderId != userId then m[it.chatId := UnreadEntry(true, it.senderId)] else m
  }

  /** Item `i` is the last one for chat `k` that the snapshot keeps. */
  ghost predicate LastKept(items: seq<SnapshotItem>, userId: string, k: string, i: int) {
    && 0 <= i < |items| && items[i].chatId == k && items[i].senderId != userId
    && forall j :: i < j < |items| ==> !(items[j].chatId == k && items[j].senderId != userId)
  }

  /** The snapshot keeps exactly the chats that have an item from someone
      other than the user, each marked unread with the sender of its last such
      item. */
  lemma {:induction false} SnapshotContents(items: seq<SnapshotItem>, userId: string, k: string)
    ensures k in SnapshotOf(items, userId) <==>
      exists i :: 0 <= i < |items| && items[i].chatId == k && items[i].senderId != userId
    ensures k in SnapshotOf(items, userId) ==>
      exists i :: LastKept(items, userId, k, i)
        && SnapshotOf(items, userId)[k] == UnreadEntry(true, items[i].senderId)
  {
    if items != [] {
      var n := |items| - 1;
      var front := items[..n];
      SnapshotContents(front, userId, k);
      var it := items[n];
      if it.chatId == k && it.senderId != userId {
        assert LastKept(items, userId, k, n);
      } else {
        if k in SnapshotOf(items, userId) {
          var i :| LastKept(front, userId, k, i) && SnapshotOf(front, userId)[k] == UnreadEntry(true, front[i].senderId);
          assert LastKept(items, userId, k, i);
        }
        if exists i :: 0 <= i < |items| && items[i].chatId == k && items[i].senderId != userId {
          var i :| 0 <= i < |items| && items[i].chatId == k && items[i].senderId != userId;
          assert front[i] == items[i];
        }
      }
    }
  }

  class UnreadTracker {
    /** The hook's inputs: the open chat (absent when none), the access token
        and the user id (empty when signed out). */
    var currentChatId: Option<string>
    var token: string
    var userId: string
    var unread: map<string, UnreadEntry>
    /** The chats passed to `onSocketMessage`, oldest first. */
    var notified: seq<string>

    ghost predicate Valid()
      reads this
    {
      WellFormed(unread, userId)
    }

    constructor (currentChatId: Option<string>, token: string, userId: string)
      ensures Valid()
      ensures this.currentChatId == currentChatId && this.token == token && this.userId == userId
      ensures unread == map[] && notified == []
    {
      this.currentChatId, this.token, this.userId := currentChatId, token, userId;
      unread, notified := map[], [];
    }

    /** The mount effect: without a token or a user nothing is fetched. The
        fetched snapshot (`None` when the request fails) replaces the map with
        its items from other senders, keyed by chat id. */
    method LoadSnapshot(response: Option<seq<SnapshotItem>>) returns (ran: bool)
      requires Valid()
      modifies this`unread
      ensures Valid()
      ensures ran <==> token != "" && userId != ""
      ensures unread == if ran && response.Some? then SnapshotOf(response.value, userId) else old(unread)
    {
      if token == "" || userId == "" {
        return false;
      }
      ran := true;
      if response.None? {
        return;
      }
      var items := response.value;
      var filtered: map<string, UnreadEntry> := map[];
      var i := 0;
      while i < |items|
        invariant 0 <= i <= |items|
        invariant filtered == SnapshotOf(items[..i], userId)
      {
        assert items[..i + 1][..i] == items[..i];
        if items[i].senderId != userId {
          filtered := filtered[items[i].chatId := UnreadEntry(true, items[i].senderId)];
        }
        i := i + 1;
      }
      assert items[..|items|] == items;
      unread := filtered;
    }

    /** `handleUnread`: ignored without a token or a user (no handler is
        registered) and for the user's own messages; an event for the open chat
        removes that chat's entry, any other marks its chat unread and is
        passed on. No other key changes. */
    method HandleUnread(ev: UnreadEvent)
      requires Valid()
      modifies this`unread, this`notified
      ensures Valid()
      ensures token == "" || userId == "" || ev.senderId == userId ==>
        unread == old(unread) && notified == old(notified)
      ensures token != "" && userId != "" && ev.senderId != userId && currentChatId == Some(ev.chatId) ==>
        unread == old(unread) - {ev.chatId} && notified == old(notified)
      ensures token != "" && userId != "" && ev.senderId != userId && currentChatId != Some(ev.chatId) ==>
        unread == old(unread)[ev.chatId := UnreadEntry(true, ev.senderId)] && notified == old(notified) + [ev.chatId]
      ensures forall k :: k != ev.chatId ==>
        (k in unread <==> k in old(unread)) && (k in unread ==> unread[k] == old(unread)[k])
    {
      if token == "" || userId == "" || ev.senderId == userId {
        return;
      }
      if currentChatId == Some(ev.chatId) {
        unread := unread - {ev.chatId};
      } else {
        unread := unread[ev.chatId := UnreadEntry(true, ev.senderId)];
        notified := notified + [ev.chatId];
      }
    }

    /** The open chat changes: its entry, and only its entry, is cleared. This
        is the effect on `currentChatId`, which React runs on mount and when
        the open chat changes, and only then; a caller invokes it only at those
        points. */
    method OpenChat(chatId: Option<string>)
      requires Valid()
      modifies this`currentChatId, this`unread
      ensures Valid()
      ensures currentChatId == chatId
      ensures unread == if chatId.Some? && chatId.value != "" then old(unread) - {chatId.value} else old(unread)
      ensures forall k :: chatId != Some(k) ==>
        (k in unread <==> k in old(unread)) && (k in unread ==> unread[k] == old(unread)[k])
    {
      currentChatId := chatId;
      if chatId.Some? && chatId.value != "" {
        unread := unread - {chatId.value};
      }
    }
  }

  /** A message from a peer in a closed chat marks it unread; opening the chat
      clears it again and leaves the other chat's entry alone. */
  method OpenClearsOnlyThatChat() returns (before: map<string, UnreadEntry>, after: map<string, UnreadEntry>)
    ensures before == map["A" := UnreadEntry(true, "peer"), "B" := UnreadEntry(true, "other")]
    ensures after == map["B" := UnreadEntry(true, "other")]
  {
    var t := new UnreadTracker(None, "token", "me");
    t.HandleUnread(UnreadEvent("A", "peer"));
    t.HandleUnread(UnreadEvent("B", "other"));
    t.HandleUnread(UnreadEvent("C", "me"));
    before := t.unread;
    t.OpenChat(Some("A"));
    after := t.unread;
  }
}
