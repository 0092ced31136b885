/** The message window of an open chat and the pure rules that update it:
    the updaters the chat tab passes to `setMessages` for a live insert, edit,
    delete and read receipt, the merge of a fetched page, and the
    classification of an outgoing attachment by MIME type. The stateful side of
    the chat tab (the pagination refs and the in-flight flag) is in module
    ChatTabState. */
module MessageWindow {
  import opened Common

  /** A party of a chat (a message's `sender`, a chat's `friend`) as the server
      sends it: a populated user object with its `_id`, a plain id, or missing
      (`null` or `undefined`). */
  datatype Party = UserObject(uid: string) | PlainId(uid: string) | NoParty
  {
    /** The party's id as a string, whichever shape it has, and empty when it
        is missing: `String(typeof p === "object" ? p?._id : p ?? "")` and
        `p?._id ?? p`. */
    function Key(): string {
      if NoParty? then "" else uid
    }

    /** `p?._id`: defined only for a user object. */
    function ObjectId(): Option<string> {
      if UserObject? then Some(uid) else None
    }
  }

  /** A loaded message. Identifiers (`_id`, chat ids, user ids) are compared as
      strings throughout the client. */
  datatype Message = Message(
    id: string,
    chatId: string,
    sender: Party,
    text: string,
    messageType: string,
    isEdited: bool,
    isRead: bool)

  /** The fields an edit carries: a server reply to an edit request, or the
      payload of a live edit event. A field that is `None` is absent from the
      object and so does not override the message's value when spread. The
      `_id` of an edit is the `_id` it was matched by, so it is not a field here. */
  datatype Patch = Patch(
    chatId: Option<string>,
    sender: Option<Party>,
    text: Option<string>,
    messageType: Option<string>,
    isRead: Option<bool>,
    isEdited: Option<bool>)

  /** A live event as the chat socket hook hands it to the chat tab:
      a new message as is, an edit reshaped with `isEdit: true`, a delete
      reshaped to `{_id, chatId, isDelete: true}`. */
  datatype LiveEvent =
    | Arrived(msg: Message)
    | Edited(chatId: string, id: string, patch: Patch)
    | Deleted(chatId: string, id: string)
  {
    function ChatId(): string {
      match this
      case Arrived(m) => m.chatId
      case Edited(c, _, _) => c
      case Deleted(c, _) => c
    }
  }

  /** A read receipt `{chatId, reader, messageIds}`. `messageIds` is `None` when
      the payload's field is not an array; an absent field defaults to `[]`. */
  datatype Receipt = Receipt(chatId: string, reader: string, messageIds: Option<seq<string>>)

  // ---------------------------------------------------------------------------
  // Window predicates

  predicate HasId(w: seq<Message>, id: string) {
    exists i :: 0 <= i < |w| && w[i].id == id
  }

  /** No two entries of the window share an `_id`. */
  predicate UniqueIds(w: seq<Message>) {
    forall i, j :: 0 <= i < j < |w| ==> w[i].id != w[j].id
  }

  // ---------------------------------------------------------------------------
  // Insert: `prev.some(m => m._id === incoming._id) ? prev : [...prev, incoming]`

  function InsertMessage(w: seq<Message>, m: Message): (r: seq<Message>)
    ensures w <= r && |r| <= |w| + 1
    ensures HasId(r, m.id)
    ensures |r| == |w| + 1 ==> r[|w|] == m
  {
    if HasId(w, m.id) then w
    else
      var r := w + [m];
      assert r[|w|] == m;
      r
  }

  /** The insert is deduplicated by `_id`: an id already present leaves the
      window as it was, a new id is appended at the tail. */
  lemma InsertDeduplicates(w: seq<Message>, m: Message)
    ensures HasId(w, m.id) ==> InsertMessage(w, m) == w
    ensures !HasId(w, m.id) ==> InsertMessage(w, m) == w + [m]
  {
  }

  lemma InsertIdempotent(w: seq<Message>, m: Message)
    ensures InsertMessage(InsertMessage(w, m), m) == InsertMessage(w, m)
  {
  }

  lemma InsertKeepsUnique(w: seq<Message>, m: Message)
    requires UniqueIds(w)
    ensures UniqueIds(InsertMessage(w, m))
  {
  }

  // ---------------------------------------------------------------------------
  // Delete: `prev.filter(m => m._id !== id)`

  function KeepOther(id: string): Message -> bool {
    (m: Message) => m.id != id
  }

  function RemoveMessage(w: seq<Message>, id: string): (r: seq<Message>)
    ensures !HasId(r, id)
    ensures forall i :: 0 <= i < |w| && w[i].id != id ==> w[i] in r
    ensures forall i :: 0 <= i < |r| ==> r[i] in w
  {
    Filter(w, KeepOther(id))
  }

  /** Delete removes exactly the entries with that `_id`: every other message
      keeps its number of occurrences, and the survivors keep their relative
      order (removal distributes over any split of the window). */
  lemma RemoveExact(w: seq<Message>, id: string, x: Message)
    ensures multiset(RemoveMessage(w, id))[x] == if x.id == id then 0 else multiset(w)[x]
  {
    FilterCount(w, KeepOther(id), x);
  }

  lemma RemoveKeepsOrder(a: seq<Message>, b: seq<Message>, id: string)
    ensures RemoveMessage(a + b, id) == RemoveMessage(a, id) + RemoveMessage(b, id)
  {
    FilterConcat(a, b, KeepOther(id));
  }

  /** Deleting an id that is not in the window is a no-op. */
  lemma RemoveAbsent(w: seq<Message>, id: string)
    requires !HasId(w, id)
    ensures RemoveMessage(w, id) == w
  {
    FilterKeepsAll(w, KeepOther(id));
  }

  lemma RemoveIdempotent(w: seq<Message>, id: string)
    ensures RemoveMessage(RemoveMessage(w, id), id) == RemoveMessage(w, id)
  {
    FilterIdempotent(w, KeepOther(id));
  }

  lemma RemoveKeepsUnique(w: seq<Message>, id: string)
    requires UniqueIds(w)
    ensures UniqueIds(RemoveMessage(w, id))
  {
    var r := RemoveMessage(w, id);
    forall i, j | 0 <= i < j < |r| ensures r[i].id != r[j].id {
      if r[i].id == r[j].id {
        // two entries with one id would make that message occur twice, or
        // two different messages with one id occur in w
        if r[i] == r[j] {
          assert multiset(r)[r[i]] >= 2 by {
            assert multiset(r) == multiset(r[..i]) + multiset([r[i]]) + multiset(r[i+1..]) by {
              assert r == r[..i] + [r[i]] + r[i+1..];
            }
            assert r[j] in r[i+1..];
          }
          RemoveExact(w, id, r[i]);
          UniqueMultiplicity(w, r[i]);
        }
      }
    }
  }

  /** In a window without duplicate ids every message occurs at most once. */
  lemma {:induction false} UniqueMultiplicity(w: seq<Message>, x: Message)
    requires UniqueIds(w)
    ensures multiset(w)[x] <= 1
  {
    if w != [] {
      UniqueMultiplicity(w[1..], x);
      assert w == [w[0]] + w[1..];
      assert multiset(w) == multiset([w[0]]) + multiset(w[1..]);
      if w[0] == x {
        assert x !in w[1..];
      }
    }
  }

  // ---------------------------------------------------------------------------
  // Edit: `prev.map(m => m._id === id ? { ...m, ...patch, isEdited: true } : m)`

  /** `{ ...m, ...p, isEdited: true }`: a field the patch carries overrides the
      message's, a field it lacks keeps the message's value; `_id` is kept and
      `isEdited` is forced to true, whatever the patch says. */
  function ApplyPatch(m: Message, p: Patch): (r: Message)
    ensures r.id == m.id && r.isEdited
    ensures p.chatId.Some? ==> r.chatId == p.chatId.value
    ensures p.chatId.None? ==> r.chatId == m.chatId
    ensures p.sender.Some? ==> r.sender == p.sender.value
    ensures p.sender.None? ==> r.sender == m.sender
    ensures p.text.Some? ==> r.text == p.text.value
    ensures p.text.None? ==> r.text == m.text
    ensures p.messageType.Some? ==> r.messageType == p.messageType.value
    ensures p.messageType.None? ==> r.messageType == m.messageType
    ensures p.isRead.Some? ==> r.isRead == p.isRead.value
    ensures p.isRead.None? ==> r.isRead == m.isRead
  {
    Message(
      m.id,
      p.chatId.GetOr(m.chatId),
      p.sender.GetOr(m.sender),
      p.text.GetOr(m.text),
      p.messageType.GetOr(m.messageType),
      true,
      p.isRead.GetOr(m.isRead))
  }

  function EditMessage(w: seq<Message>, id: string, p: Patch): (r: seq<Message>)
    ensures |r| == |w|
    ensures forall i :: 0 <= i < |w| ==> r[i].id == w[i].id
    ensures forall i :: 0 <= i < |w| && w[i].id != id ==> r[i] == w[i]
    ensures forall i :: 0 <= i < |w| && w[i].id == id ==> r[i] == ApplyPatch(w[i], p) && r[i].isEdited
  {
    seq(|w|, i requires 0 <= i < |w| => if w[i].id == id then ApplyPatch(w[i], p) else w[i])
  }

  /** An edit that carries a new text shows that text, marked edited, on every
      entry with the edited id, and keeps those entries' other fields unless
      the edit carries them too. */
  lemma EditShowsNewText(w: seq<Message>, id: string, p: Patch, t: string, i: int)
    requires p.text == Some(t) && 0 <= i < |w| && w[i].id == id
    ensures EditMessage(w, id, p)[i].text == t && EditMessage(w, id, p)[i].isEdited
    ensures p.sender.None? ==> EditMessage(w, id, p)[i].sender == w[i].sender
    ensures p.chatId.None? ==> EditMessage(w, id, p)[i].chatId == w[i].chatId
  {
    assert EditMessage(w, id, p)[i] == ApplyPatch(w[i], p);
  }

  /** An edit for an id that is not in the window leaves it unchanged. */
  lemma EditAbsent(w: seq<Message>, id: string, p: Patch)
    requires !HasId(w, id)
    ensures EditMessage(w, id, p) == w
  {
  }

  /** Merging the same fields twice gives what merging them once gives. */
  lemma EditIdempotent(w: seq<Message>, id: string, p: Patch)
    ensures EditMessage(EditMessage(w, id, p), id, p) == EditMessage(w, id, p)
  {
  }

  lemma EditKeepsUnique(w: seq<Message>, id: string, p: Patch)
    requires UniqueIds(w)
    ensures UniqueIds(EditMessage(w, id, p))
  {
  }

  // ---------------------------------------------------------------------------
  // Live events, as `handleSocketMessage` applies them

  /** The updater `handleSocketMessage` applies for one live event while the
      chat `openChatId` is open. The edit spreads the whole event, so its
      `chatId` overrides the message's. */
  function ApplyLive(w: seq<Message>, ev: LiveEvent, openChatId: string): (r: seq<Message>)
    ensures ev.ChatId() != openChatId ==> r == w
  {
    if ev.ChatId() != openChatId then w
    else match ev
      case Deleted(_, id) => RemoveMessage(w, id)
      case Edited(c, id, p) => EditMessage(w, id, p.(chatId := Some(c)))
      case Arrived(m) => InsertMessage(w, m)
  }

  /** A live edit of the open chat merges the event, with its `chatId`, into
      every entry with the edited id. */
  lemma LiveEditMerges(w: seq<Message>, c: string, id: string, p: Patch, i: int)
    requires 0 <= i < |w| && w[i].id == id
    ensures ApplyLive(w, Edited(c, id, p), c)[i] == ApplyPatch(w[i], p.(chatId := Some(c)))
    ensures p.text.Some? ==> ApplyLive(w, Edited(c, id, p), c)[i].text == p.text.value
  {
  }

  /** Every live event is idempotent: replaying it yields the window that
      applying it once yields. */
  lemma LiveIdempotent(w: seq<Message>, ev: LiveEvent, openChatId: string)
    ensures ApplyLive(ApplyLive(w, ev, openChatId), ev, openChatId) == ApplyLive(w, ev, openChatId)
  {
    if ev.ChatId() == openChatId {
      match ev
      case Deleted(_, id) => RemoveIdempotent(w, id);
      case Edited(c, id, p) => EditIdempotent(w, id, p.(chatId := Some(c)));
      case Arrived(m) => InsertIdempotent(w, m);
    }
  }

  /** Live events never introduce a duplicate id. */
  lemma LiveKeepsUnique(w: seq<Message>, ev: LiveEvent, openChatId: string)
    requires UniqueIds(w)
    ensures UniqueIds(ApplyLive(w, ev, openChatId))
  {
    if ev.ChatId() == openChatId {
      match ev
      case Deleted(_, id) => RemoveKeepsUnique(w, id);
      case Edited(c, id, p) => EditKeepsUnique(w, id, p.(chatId := Some(c)));
      case Arrived(m) => InsertKeepsUnique(w, m);
    }
  }

  // ---------------------------------------------------------------------------
  // Read receipts, as `handleReadUpdate` applies them

  /** True for a message the receipt marks read: the current user sent it, the
      reader is the chat's friend, and its id is listed. */
  predicate ReadByFriend(m: Message, myId: string, friendId: string, reader: string, ids: seq<string>) {
    m.sender.Key() == myId && reader == friendId && m.id in ids
  }

  /** The receipt updater for an open chat `openChatId`. `myId` and `friendId`
      are the current user's and the friend's ids as strings (empty when
      absent). */
  function ApplyReceipt(w: seq<Message>, rc: Receipt, openChatId: string, myId: string, friendId: string): (r: seq<Message>)
    ensures |r| == |w|
  {
    if rc.chatId != openChatId || rc.messageIds.None? || |rc.messageIds.value| == 0 then w
    else
      seq(|w|, i requires 0 <= i < |w| =>
        if ReadByFriend(w[i], myId, friendId, rc.reader, rc.messageIds.value) && !w[i].isRead
        then w[i].(isRead := true) else w[i])
  }

  /** A message ends up read exactly when it was read already or the receipt
      marks it read; only the `isRead` flag can change, and never from true to
      false. A receipt for another chat, or with an empty or non-array id list,
      changes nothing. */
  lemma ReceiptEffect(w: seq<Message>, rc: Receipt, openChatId: string, myId: string, friendId: string, i: int)
    requires 0 <= i < |w|
    ensures ApplyReceipt(w, rc, openChatId, myId, friendId)[i] == w[i].(isRead := ApplyReceipt(w, rc, openChatId, myId, friendId)[i].isRead)
    ensures ApplyReceipt(w, rc, openChatId, myId, friendId)[i].isRead <==>
      (w[i].isRead
       || (rc.chatId == openChatId && rc.messageIds.Some?
           && ReadByFriend(w[i], myId, friendId, rc.reader, rc.messageIds.value)))
  {
  }

  lemma ReceiptNoOp(w: seq<Message>, rc: Receipt, openChatId: string, myId: string, friendId: string)
    requires rc.chatId != openChatId || rc.messageIds.None? || rc.messageIds == Some([])
    ensures ApplyReceipt(w, rc, openChatId, myId, friendId) == w
  {
  }

  lemma ReceiptKeepsUnique(w: seq<Message>, rc: Receipt, openChatId: string, myId: string, friendId: string)
    requires UniqueIds(w)
    ensures UniqueIds(ApplyReceipt(w, rc, openChatId, myId, friendId))
  {
  }

  // ---------------------------------------------------------------------------
  // Page merge, as `loadMessages` applies a fetched page

  /** A prepended page goes before the loaded messages, any other page after. */
  function MergePage(prev: seq<Message>, page: seq<Message>, prepend: bool): (r: seq<Message>)
    ensures |r| == |prev| + |page|
    ensures prepend ==> r[..|page|] == page && r[|page|..] == prev
    ensures !prepend ==> r[..|prev|] == prev && r[|prev|..] == page
  {
    if prepend then page + prev else prev + page
  }

  /** The merge does not deduplicate: a page that repeats a loaded id leaves
      two entries with that id in the window. */
  lemma MergeMayDuplicate(prev: seq<Message>, page: seq<Message>, prepend: bool, i: int, j: int)
    requires 0 <= i < |prev| && 0 <= j < |page| && prev[i].id == page[j].id
    ensures !UniqueIds(MergePage(prev, page, prepend))
  {
    var r := MergePage(prev, page, prepend);
    if prepend {
      assert r[j] == page[j] && r[|page| + i] == prev[i];
    } else {
      assert r[i] == prev[i] && r[|prev| + j] == page[j];
    }
  }

  // ---------------------------------------------------------------------------
  // Outgoing messages

  /** An attachment as the browser's `File` exposes it. */
  datatype Attachment = Attachment(name: string, mime: string)

  datatype MessageKind = Text | Image | Video | Audio | File {
    /** The `messageType` string sent to the server. */
    function Name(): string {
      match this
      case Text => "text"
      case Image => "image"
      case Video => "video"
      case Audio => "audio"
      case File => "file"
    }
  }

  /** The kind of an attachment by MIME prefix, tested in the order image,
      video, audio; anything else is a generic file. */
  function KindOfMime(mime: string): (k: MessageKind)
    ensures k != Text
    ensures k == Image <==> StartsWith(mime, "image/")
    ensures k == Video <==> StartsWith(mime, "video/")
    ensures k == Audio <==> StartsWith(mime, "audio/")
  {
    if StartsWith(mime, "image/") then
      assert mime[0] == 'i';
      Image
    else if StartsWith(mime, "video/") then
      assert mime[0] == 'v';
      Video
    else if StartsWith(mime, "audio/") then Audio
    else File
  }

  /** `messageType` of an outgoing message: text without a file, otherwise the
      file's kind. */
  function KindOfSend(file: Option<Attachment>): (k: MessageKind)
    ensures k == Text <==> file.None?
    ensures file.Some? ==> k == KindOfMime(file.value.mime)
  {
    match file
    case None => Text
    case Some(f) => KindOfMime(f.mime)
  }

  /** The form data `onSend` posts. */
  datatype SendForm = SendForm(chatId: string, text: Option<string>, file: Option<Attachment>, messageType: string)

  /** What `onSend` posts for `text` (possibly absent) and `file`, or `None`
      when it sends nothing. */
  function ComposeSend(chatId: string, text: Option<string>, file: Option<Attachment>): (r: Option<SendForm>)
    ensures r.None? <==> (text.None? || IsBlank(text.value)) && file.None?
    ensures r.Some? ==> r.value.chatId == chatId && r.value.file == file
    ensures r.Some? ==> r.value.messageType == KindOfSend(file).Name()
    ensures r.Some? ==> (r.value.text.Some? <==> text.Some? && !IsBlank(text.value))
    ensures r.Some? && r.value.text.Some? ==> r.value.text.value == Trim(text.value)
  {
    var raw := text.GetOr("");
    TrimEmptyIffBlank(raw);
    var content := Trim(raw);
    if content == "" && file.None? then None
    else Some(SendForm(chatId, if content == "" then None else Some(content), file, KindOfSend(file).Name()))
  }
}
