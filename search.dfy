/** User search: the result list shared by the three search views, the
    friend-status patch that live friend-request events apply to it, and the
    query guards and fetch lifecycle of each view. The search call is replaced
    by its outcome, given as a parameter. */
module UserSearch {
  import opened Common

  /** A search hit, as a user card shows it. */
  datatype User = User(id: string, fullName: string, email: string, profilePic: string, friendRequestStatus: Option<string>)

  /** A friend-request socket event as the search views read it; either id
      may be missing. */
  datatype StatusEvent = StatusEvent(senderId: Option<string>, receiverId: Option<string>, status: Option<string>)

  /** The outcome of `searchUsers`: a failure, or a reply whose `data.users`
      may be missing. */
  datatype SearchOutcome = SearchFailed | Replied(users: Option<seq<User>>)

  predicate Involves(u: User, ev: StatusEvent) {
    ev.senderId == Some(u.id) || ev.receiverId == Some(u.id)
  }

  /** `prev.map(u => u._id === senderId || u._id === receiverId ? {...u, friendRequestStatus: status} : u)`. */
  function PatchStatus(users: seq<User>, ev: StatusEvent): (r: seq<User>)
    ensures |r| == |users|
  {
    seq(|users|, i requires 0 <= i < |users| =>
      if Involves(users[i], ev) then users[i].(friendRequestStatus := ev.status) else users[i])
  }

  /** The patch sets the status of every user the event involves and of no
      other; it keeps every user in place and changes no other field. */
  lemma PatchEffect(users: seq<User>, ev: StatusEvent, i: int)
    requires 0 <= i < |users|
    ensures PatchStatus(users, ev)[i].id == users[i].id
    ensures PatchStatus(users, ev)[i] == users[i].(friendRequestStatus := PatchStatus(users, ev)[i].friendRequestStatus)
    ensures Involves(users[i], ev) ==> PatchStatus(users, ev)[i].friendRequestStatus == ev.status
    ensures !Involves(users[i], ev) ==> PatchStatus(users, ev)[i] == users[i]
  {
  }

  /** The same event applied twice has the effect of applying it once. */
  lemma PatchIdempotent(users: seq<User>, ev: StatusEvent)
    ensures PatchStatus(PatchStatus(users, ev), ev) == PatchStatus(users, ev)
  {
  }

  /** An event that involves nobody in the list leaves the list as it is. */
  lemma PatchUninvolved(users: seq<User>, ev: StatusEvent)
    requires forall i :: 0 <= i < |users| ==> !Involves(users[i], ev)
    ensures PatchStatus(users, ev) == users
  {
  }

  /** The patch works user by user: patching a concatenation patches each
      part. */
  lemma PatchConcat(a: seq<User>, b: seq<User>, ev: StatusEvent)
    ensures PatchStatus(a + b, ev) == PatchStatus(a, ev) + PatchStatus(b, ev)
  {
    var l, r := PatchStatus(a + b, ev), PatchStatus(a, ev) + PatchStatus(b, ev);
    forall i | 0 <= i < |l|
      ensures l[i] == r[i]
    {
      if i >= |a| {
        assert (a + b)[i] == b[i - |a|];
      }
    }
  }

  /** `res?.data?.users || []`. */
  function UsersOf(users: Option<seq<User>>): (r: seq<User>)
    ensures users.None? ==> r == []
    ensures users.Some? ==> r == users.value
  {
    users.GetOr([])
  }

  /** The friend embedded into a chat opened from the results. */
  datatype Friend = Friend(id: string, fullName: string, email: string, profilePic: string)

  /** A chat record as `createOrGetOneToOneChat` returns it. */
  datatype ChatRecord = ChatRecord(chatId: string, isGroupChat: bool)

  /** `{...chatRes.data, friend: {...}}`: the chat record with the selected
      user's identity attached. */
  datatype OpenedChat = OpenedChat(chat: ChatRecord, friend: Friend)

  /** `handleOpenChat`'s chat object: the reply's chat record and a friend
      holding the selected user's `_id`, `fullName`, `email` and `profilePic`,
      and nothing else of the user. */
  function OpenChatFor(chat: ChatRecord, u: User): (r: OpenedChat)
    ensures r.chat == chat
    ensures r.friend.id == u.id && r.friend.fullName == u.fullName
    ensures r.friend.email == u.email && r.friend.profilePic == u.profilePic
  {
    OpenedChat(chat, Friend(u.id, u.fullName, u.email, u.profilePic))
  }

  /** The friend does not depend on the user's request status. */
  lemma OpenChatIgnoresStatus(chat: ChatRecord, u: User, s: Option<string>)
    ensures OpenChatFor(chat, u) == OpenChatFor(chat, u.(friendRequestStatus := s))
  {
  }

  /** The search page and the footer search: a query taken from the URL or
      typed in, `fetchUsers` with its blank-term guard, and the status patch.
      The footer adds the form submit, the page the open-chat action. */
  class SearchResults {
    var query: string
    var users: seq<User>
    var loading: bool
    /** Searches dispatched and not yet settled. */
    var pending: nat
    /** Every term sent to `searchUsers`, oldest first. */
    var searched: seq<string>
    /** The chat opened from a result (search page only). */
    var selectedChat: Option<OpenedChat>

    ghost predicate Valid()
      reads this
    {
      loading ==> pending > 0
    }

    constructor ()
      ensures Valid()
      ensures query == "" && users == [] && !loading && pending == 0 && searched == [] && selectedChat == None
    {
      query, users, loading, pending, searched, selectedChat := "", [], false, 0, [], None;
    }

    /** `fetchUsers(term)` up to its `await`: a blank term empties the list and
        sends nothing; any other term is sent and raises `loading`. */
    method FetchUsers(term: string) returns (sentTerm: bool)
      requires Valid()
      modifies this`users, this`loading, this`pending, this`searched
      ensures Valid()
      ensures sentTerm <==> !IsBlank(term)
      ensures !sentTerm ==> users == [] && loading == old(loading) && pending == old(pending) && searched == old(searched)
      ensures sentTerm ==> users == old(users) && loading && pending == old(pending) + 1 && searched == old(searched) + [term]
    {
      TrimEmptyIffBlank(term);
      if Trim(term) == "" {
        users := [];
        return false;
      }
      loading := true;
      pending := pending + 1;
      searched := searched + [term];
      sentTerm := true;
    }

    /** The rest of `fetchUsers`, when a search settles: a reply replaces the
        list (with `[]` for missing users), a failure keeps it; the `finally`
        lowers `loading`, even if other searches are still out. */
    method SearchSettled(outcome: SearchOutcome)
      requires Valid() && pending > 0
      modifies this`users, this`loading, this`pending
      ensures Valid()
      ensures !loading && pending == old(pending) - 1
      ensures users == if outcome.Replied? then UsersOf(outcome.users) else old(users)
    {
      if outcome.Replied? {
        users := UsersOf(outcome.users);
      }
      loading := false;
      pending := pending - 1;
    }

    /** A new query, from the URL's `q` (absent counts as empty) or from the
        footer's input. The query effect runs only when the query changes, and
        fetches only for a non-empty query. */
    method SetQuery(q: string) returns (fetched: bool)
      requires Valid()
      modifies this`query, this`users, this`loading, this`pending, this`searched
      ensures Valid()
      ensures query == q
      ensures fetched <==> q != old(query) && q != "" && !IsBlank(q)
      ensures q == old(query) || q == "" ==>
        users == old(users) && loading == old(loading) && pending == old(pending) && searched == old(searched)
      ensures q != old(query) && q != "" && IsBlank(q) ==>
        users == [] && loading == old(loading) && pending == old(pending) && searched == old(searched)
      ensures fetched ==>
        users == old(users) && loading && pending == old(pending) + 1 && searched == old(searched) + [q]
    {
      fetched := false;
      var changed := q != query;
      query := q;
      if changed && q != "" {
        fetched := FetchUsers(q);
      }
    }

    /** The URL's `q` parameter, `get("q") || ""`. */
    method SetLocation(q: Option<string>) returns (fetched: bool)
      requires Valid()
      modifies this`query, this`users, this`loading, this`pending, this`searched
      ensures Valid()
      ensures query == q.GetOr("")
      ensures fetched <==> q.GetOr("") != old(query) && q.GetOr("") != "" && !IsBlank(q.GetOr(""))
      ensures q.GetOr("") == old(query) || q.GetOr("") == "" ==>
        users == old(users) && loading == old(loading) && pending == old(pending) && searched == old(searched)
      ensures q.GetOr("") != old(query) && q.GetOr("") != "" && IsBlank(q.GetOr("")) ==>
        users == [] && loading == old(loading) && pending == old(pending) && searched == old(searched)
      ensures fetched ==>
        users == old(users) && loading && pending == old(pending) + 1 && searched == old(searched) + [q.GetOr("")]
    {
      fetched := SetQuery(q.GetOr(""));
    }

    /** The footer's submit: searches for the current query even when it has
        not changed. */
    method Submit() returns (fetched: bool)
      requires Valid()
      modifies this`users, this`loading, this`pending, this`searched
      ensures Valid()
      ensures fetched <==> !IsBlank(query)
      ensures !fetched ==>
        users == [] && loading == old(loading) && pending == old(pending) && searched == old(searched)
      ensures fetched ==>
        users == old(users) && loading && pending == old(pending) + 1 && searched == old(searched) + [query]
    {
      fetched := FetchUsers(query);
    }

    /** A friend-request status event. */
    method OnStatus(ev: StatusEvent)
      modifies this`users
      ensures users == PatchStatus(old(users), ev)
    {
      users := PatchStatus(users, ev);
    }

    /** `handleOpenChat`: with the reply's chat record (absent on failure) the
        search page opens that chat with the user as its friend. */
    method HandleOpenChat(u: User, reply: Option<ChatRecord>)
      modifies this`selectedChat
      ensures selectedChat == if reply.Some? then Some(OpenChatFor(reply.value, u)) else old(selectedChat)
    {
      if reply.Some? {
        selectedChat := Some(OpenChatFor(reply.value, u));
      }
    }
  }

  /** The header's results: the query is the URL's `q`, possibly absent; the
      fetch runs for any present, non-empty query (a blank query is sent
      too), and the list shows a spinner from the start until a search
      settles. */
  class HeaderResults {
    var query: Option<string>
    var users: seq<User>
    var loading: bool
    var pending: nat
    var searched: seq<string>

    constructor ()
      ensures query == None && users == [] && loading && pending == 0 && searched == []
    {
      query, users, loading, pending, searched := None, [], true, 0, [];
    }

    /** The query effect: nothing without a query; otherwise the query is
        sent. React runs it on mount and whenever `q` changes, and only then,
        so a caller invokes it only on mount or with a changed `q`; a call with
        an unchanged `q` would be a second search the source never makes. */
    method QueryEffect(q: Option<string>) returns (fetched: bool)
      modifies this`query, this`pending, this`searched
      ensures query == q
      ensures fetched <==> q.Some? && q.value != ""
      ensures fetched ==> pending == old(pending) + 1 && searched == old(searched) + [q.value]
      ensures !fetched ==> pending == old(pending) && searched == old(searched)
    {
      query := q;
      if q.None? || q.value == "" {
        return false;
      }
      pending := pending + 1;
      searched := searched + [q.value];
      fetched := true;
    }

    /** A search settles: a reply replaces the list, and either way the
        spinner stops. */
    method SearchSettled(outcome: SearchOutcome)
      requires pending > 0
      modifies this`users, this`loading, this`pending
      ensures !loading && pending == old(pending) - 1
      ensures users == if outcome.Replied? then UsersOf(outcome.users) else old(users)
    {
      if outcome.Replied? {
        users := UsersOf(outcome.users);
      }
      loading := false;
      pending := pending - 1;
    }

    method OnStatus(ev: StatusEvent)
      modifies this`users
      ensures users == PatchStatus(old(users), ev)
    {
      users := PatchStatus(users, ev);
    }
  }

  /** Without a query the header sends nothing and its spinner never stops;
      with a blank one it searches anyway. The other views search for neither. */
  method HeaderGuardIsWeaker() returns (spinning: bool, headerSent: bool, pageSent: bool)
    ensures spinning && headerSent && !pageSent
  {
    var h := new HeaderResults();
    var none := h.QueryEffect(None);
    spinning := h.loading;
    headerSent := h.QueryEffect(Some(" "));
    var page := new SearchResults();
    assert IsBlank(" ");
    pageSent := page.SetQuery(" ");
  }
}
