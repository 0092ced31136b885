/** Friend requests: the request records and the list updates shared by the
    two friend-request panels (removing a request by `requestId`, patching the
    status of sent requests), and, in the two modules that follow, the state of
    each panel: the panel with the live socket feed and the "new requests"
    badge, and the simpler panel with only the three lists. Service calls are
    replaced by their outcomes, given as parameters. */
module Requests {
  import opened Common

  /** A request (or friend) record as the lists hold it. `status` is the field
      a status-update payload carries; the lists show `friendRequestStatus`. */
  datatype Request = Request(requestId: string, userId: string, friendRequestStatus: Option<string>, status: Option<string>)

  /** The three lists of a panel and its three tabs. */
  datatype ListKind = IncomingList | SentList | FriendsList

  /** The outcome of a list fetch: a failure, or a reply whose `data` may be
      missing. */
  datatype FetchResult = FetchFailed | FetchOk(data: Option<seq<Request>>)

  /** The list after a fetch: a reply replaces it (with `[]` for a missing
      `data`), a failure leaves it. */
  function AfterFetch(list: seq<Request>, res: FetchResult): (r: seq<Request>)
    ensures res.FetchFailed? ==> r == list
    ensures res == FetchOk(None) ==> r == []
    ensures res.FetchOk? && res.data.Some? ==> r == res.data.value
  {
    match res
    case FetchFailed => list
    case FetchOk(data) => data.GetOr([])
  }

  function KeepOtherRequest(requestId: string): Request -> bool {
    (r: Request) => r.requestId != requestId
  }

  /** `list.filter(r => r.requestId !== requestId)`. */
  function RemoveRequest(list: seq<Request>, requestId: string): (r: seq<Request>)
    ensures |r| <= |list|
    ensures forall i :: 0 <= i < |r| ==> r[i].requestId != requestId && r[i] in list
    ensures forall i :: 0 <= i < |list| && list[i].requestId != requestId ==> list[i] in r
  {
    Filter(list, KeepOtherRequest(requestId))
  }

  /** Removal takes out exactly the entries with that `requestId`, keeps the
      others as often as they occurred, and keeps their order. */
  lemma RemoveRequestExact(list: seq<Request>, requestId: string, x: Request)
    ensures multiset(RemoveRequest(list, requestId))[x] == if x.requestId == requestId then 0 else multiset(list)[x]
  {
    FilterCount(list, KeepOtherRequest(requestId), x);
  }

  lemma RemoveRequestKeepsOrder(a: seq<Request>, b: seq<Request>, requestId: string)
    ensures RemoveRequest(a + b, requestId) == RemoveRequest(a, requestId) + RemoveRequest(b, requestId)
  {
    FilterConcat(a, b, KeepOtherRequest(requestId));
  }

  /** `sent.map(req => req.requestId === id ? { ...req, friendRequestStatus: status } : req)`. */
  function SetStatus(sent: seq<Request>, requestId: string, status: Option<string>): (r: seq<Request>)
    ensures |r| == |sent|
  {
    seq(|sent|, i requires 0 <= i < |sent| =>
      if sent[i].requestId == requestId then sent[i].(friendRequestStatus := status) else sent[i])
  }

  /** The status patch changes only `friendRequestStatus`, and only on the
      entries whose `requestId` matches; every other entry stays as it was. */
  lemma SetStatusEffect(sent: seq<Request>, requestId: string, status: Option<string>, i: int)
    requires 0 <= i < |sent|
    ensures sent[i].requestId != requestId ==> SetStatus(sent, requestId, status)[i] == sent[i]
    ensures sent[i].requestId == requestId ==>
      SetStatus(sent, requestId, status)[i].friendRequestStatus == status
      && SetStatus(sent, requestId, status)[i] == sent[i].(friendRequestStatus := status)
  {
  }

  /** `prev.filter(...)` for a request id that no entry has is a no-op. */
  lemma RemoveAbsentRequest(list: seq<Request>, requestId: string)
    requires forall i :: 0 <= i < |list| ==> list[i].requestId != requestId
    ensures RemoveRequest(list, requestId) == list
  {
    FilterKeepsAll(list, KeepOtherRequest(requestId));
  }
}

/** The friend-request panel with the live feed: NEW_REQUEST and STATUS_UPDATE
    events, accept and reject, the three list fetches, and the badge that
    signals new incoming requests. */
module RequestHandler {
  import opened Common
  import opened Requests
  import Auth

  /** `useFriendRequestSocket` registers its listeners only with a truthy
      token and an existing socket. */
  predicate Subscribes(token: Option<string>, hasSocket: bool) {
    token.Some? && token.value != "" && hasSocket
  }

  /** The token the panel hands to the socket hook, as written: it reads a
      `token` field of the auth slice, and the slice has no such field (its
      token is `accessToken`), so the value is always undefined. */
  function PanelTokenAsWritten(s: Auth.Session): Option<string> {
    None
  }

  /** As written, the panel never subscribes, whatever the session: live
      request events never reach `handleSocketUpdate`. */
  lemma PanelNeverSubscribesAsWritten(s: Auth.Session, hasSocket: bool)
    ensures !Subscribes(PanelTokenAsWritten(s), hasSocket)
  {
  }

  /** The evidently intended token: the slice's `accessToken`, as the search
      pages select it. */
  function PanelToken(s: Auth.Session): Option<string> {
    s.accessToken
  }

  /** With the intended token, a signed-in session with a socket subscribes,
      and a signed-out one does not. */
  lemma SignedInPanelSubscribes(s: Auth.Session, p: Auth.LoginPayload, hasSocket: bool)
    ensures Subscribes(PanelToken(Auth.LoginState(s, p)), hasSocket) <==>
      hasSocket && p.accessToken.Some? && p.accessToken.value != ""
    ensures !Subscribes(PanelToken(Auth.LogoutState(s)), hasSocket)
  {
  }

  /** A socket event `{type, payload}`. */
  datatype FriendEvent = FriendEvent(eventType: string, payload: Request)

  /** The lists the tab effect fetches: the sent tab fetches the sent list;
      any other tab fetches the incoming requests and the friends. */
  function FetchesFor(tab: string): (r: seq<ListKind>)
    ensures tab == "sent" <==> r == [SentList]
    ensures tab != "sent" ==> IncomingList in r && FriendsList in r && SentList !in r
  {
    if tab == "sent" then [SentList] else [IncomingList, FriendsList]
  }

  /** The list rendered under a tab. */
  function DisplayedList(tab: string): ListKind {
    if tab == "friends" then FriendsList else if tab == "sent" then SentList else IncomingList
  }

  /** Whatever the tab, the list it shows is among the lists its effect fetches. */
  lemma DisplayedIsFetched(tab: string)
    ensures DisplayedList(tab) in FetchesFor(tab)
  {
  }

  class FriendRequests {
    var activeTab: string
    var incoming: seq<Request>
    var sent: seq<Request>
    var friends: seq<Request>
    var hasNewRequests: bool
    /** The socket hook has registered `handleSocketUpdate`. */
    var listening: bool

    constructor ()
      ensures activeTab == "friends" && incoming == [] && sent == [] && friends == [] && !hasNewRequests
      ensures !listening
    {
      activeTab := "friends";
      incoming, sent, friends := [], [], [];
      hasNewRequests, listening := false, false;
    }

    /** The socket hook's effect, with the intended token. */
    method Subscribe(session: Auth.Session, hasSocket: bool)
      modifies this`listening
      ensures listening == Subscribes(PanelToken(session), hasSocket)
    {
      listening := Subscribes(PanelToken(session), hasSocket);
    }

    /** A friend-request socket event: handled only once the hook listens. */
    method Deliver(ev: FriendEvent)
      modifies this`incoming, this`sent, this`friends, this`hasNewRequests
      ensures !listening ==>
        incoming == old(incoming) && sent == old(sent) && friends == old(friends)
        && hasNewRequests == old(hasNewRequests)
      ensures listening && ev.eventType == "NEW_REQUEST" ==>
        && incoming == [ev.payload] + old(incoming) && hasNewRequests
        && sent == old(sent) && friends == old(friends)
      ensures listening && ev.eventType == "STATUS_UPDATE" ==>
        && sent == SetStatus(old(sent), ev.payload.requestId, ev.payload.status)
        && friends == old(friends) + (if ev.payload.status == Some("accepted") then [ev.payload] else [])
        && incoming == RemoveRequest(old(incoming), ev.payload.requestId)
        && hasNewRequests == (old(hasNewRequests) && |old(incoming)| > 1)
      ensures listening && ev.eventType != "NEW_REQUEST" && ev.eventType != "STATUS_UPDATE" ==>
        incoming == old(incoming) && sent == old(sent) && friends == old(friends)
        && hasNewRequests == old(hasNewRequests)
    {
      if listening {
        HandleSocketUpdate(ev);
      }
    }

    /** `fetchIncoming`: the reply replaces the list, and the badge shows
        exactly when the reply holds requests; a failure changes nothing. */
    method FetchIncoming(res: FetchResult)
      modifies this`incoming, this`hasNewRequests
      ensures incoming == AfterFetch(old(incoming), res)
      ensures res.FetchFailed? ==> hasNewRequests == old(hasNewRequests)
      ensures res.FetchOk? ==> (hasNewRequests <==> res.data.Some? && |res.data.value| > 0)
    {
      incoming := AfterFetch(incoming, res);
      if res.FetchOk? {
        hasNewRequests := res.data.Some? && |res.data.value| > 0;
      }
    }

    method FetchSent(res: FetchResult)
      modifies this`sent
      ensures sent == AfterFetch(old(sent), res)
    {
      sent := AfterFetch(sent, res);
    }

    method FetchFriends(res: FetchResult)
      modifies this`friends
      ensures friends == AfterFetch(old(friends), res)
    {
      friends := AfterFetch(friends, res);
    }

    /** After a confirmed accept or reject: the request leaves `incoming`, and
        the badge is cleared when, before the removal, at most one request was
        listed. With an unconfirmed call nothing changes. */
    method Resolve(requestId: string, confirmed: bool)
      modifies this`incoming, this`hasNewRequests
      ensures !confirmed ==> incoming == old(incoming) && hasNewRequests == old(hasNewRequests)
      ensures confirmed ==> incoming == RemoveRequest(old(incoming), requestId)
      ensures confirmed ==> hasNewRequests == (old(hasNewRequests) && |old(incoming)| > 1)
    {
      if !confirmed {
        return;
      }
      var before := |incoming|;
      incoming := RemoveRequest(incoming, requestId);
      if before <= 1 {
        hasNewRequests := false;
      }
    }

    /** `acceptRequest`: `accepted` is whether the service call succeeded. */
    method AcceptRequest(requestId: string, accepted: bool)
      modifies this`incoming, this`hasNewRequests
      ensures !accepted ==> incoming == old(incoming) && hasNewRequests == old(hasNewRequests)
      ensures accepted ==> incoming == RemoveRequest(old(incoming), requestId)
      ensures accepted ==> hasNewRequests == (old(hasNewRequests) && |old(incoming)| > 1)
    {
      Resolve(requestId, accepted);
    }

    /** `rejectRequest`: `rejected` is whether the service call succeeded. */
    method RejectRequest(requestId: string, rejected: bool)
      modifies this`incoming, this`hasNewRequests
      ensures !rejected ==> incoming == old(incoming) && hasNewRequests == old(hasNewRequests)
      ensures rejected ==> incoming == RemoveRequest(old(incoming), requestId)
      ensures rejected ==> hasNewRequests == (old(hasNewRequests) && |old(incoming)| > 1)
    {
      Resolve(requestId, rejected);
    }

    /** `handleSocketUpdate`. A new request goes to the front of `incoming` and
        raises the badge. A status update patches the matching sent requests,
        adds the payload to `friends` when accepted, removes the request from
        `incoming`, and clears the badge when at most one request was listed.
        Any other event type changes nothing. */
    method HandleSocketUpdate(ev: FriendEvent)
      modifies this`incoming, this`sent, this`friends, this`hasNewRequests
      ensures ev.eventType == "NEW_REQUEST" ==>
        && incoming == [ev.payload] + old(incoming) && hasNewRequests
        && sent == old(sent) && friends == old(friends)
      ensures ev.eventType == "STATUS_UPDATE" ==>
        && sent == SetStatus(old(sent), ev.payload.requestId, ev.payload.status)
        && friends == old(friends) + (if ev.payload.status == Some("accepted") then [ev.payload] else [])
        && incoming == RemoveRequest(old(incoming), ev.payload.requestId)
        && hasNewRequests == (old(hasNewRequests) && |old(incoming)| > 1)
      ensures ev.eventType != "NEW_REQUEST" && ev.eventType != "STATUS_UPDATE" ==>
        incoming == old(incoming) && sent == old(sent) && friends == old(friends)
        && hasNewRequests == old(hasNewRequests)
    {
      var p := ev.payload;
      if ev.eventType == "NEW_REQUEST" {
        incoming := [p] + incoming;
        hasNewRequests := true;
      }
      if ev.eventType == "STATUS_UPDATE" {
        var before := |incoming|;
        sent := SetStatus(sent, p.requestId, p.status);
        if p.status == Some("accepted") {
          friends := friends + [p];
        }
        incoming := RemoveRequest(incoming, p.requestId);
        if before <= 1 {
          hasNewRequests := false;
        }
      }
    }

    /** The tab effect on mount. */
    method Mount() returns (fetches: seq<ListKind>)
      ensures fetches == FetchesFor(activeTab)
    {
      fetches := FetchesFor(activeTab);
    }

    /** A tab button: selecting the incoming tab clears the badge, and the tab
        effect fetches again only when the tab actually changes. */
    method SelectTab(tab: string) returns (fetches: seq<ListKind>)
      modifies this`activeTab, this`hasNewRequests
      ensures activeTab == tab
      ensures hasNewRequests == (old(hasNewRequests) && tab != "incoming")
      ensures fetches == if tab == old(activeTab) then [] else FetchesFor(tab)
    {
      fetches := if tab == activeTab then [] else FetchesFor(tab);
      activeTab := tab;
      if tab == "incoming" {
        hasNewRequests := false;
      }
    }
  }

  /** A new request on top of one already listed, then its acceptance by the
      other side: the status update moves it to the friends, and the badge
      stays up for the request still listed. */
  method RequestThenAccepted(r: Request, older: Request) returns (incoming: seq<Request>, friends: seq<Request>, badge: bool)
    requires older.requestId != r.requestId
    ensures incoming == [older] && badge
    ensures friends == [r.(status := Some("accepted"))]
  {
    var panel := new FriendRequests();
    panel.FetchIncoming(FetchOk(Some([older])));
    panel.HandleSocketUpdate(FriendEvent("NEW_REQUEST", r));
    var accepted := r.(status := Some("accepted"));
    panel.HandleSocketUpdate(FriendEvent("STATUS_UPDATE", accepted));
    RemoveSettled(r, older);
    incoming, friends, badge := panel.incoming, panel.friends, panel.hasNewRequests;
  }

  lemma RemoveSettled(r: Request, older: Request)
    requires older.requestId != r.requestId
    ensures RemoveRequest([r, older], r.requestId) == [older]
  {
    RemoveRequestKeepsOrder([r], [older], r.requestId);
    assert [r] + [older] == [r, older];
    RemoveAbsentRequest([older], r.requestId);
  }
}

/** The friend-request panel without the live feed: accept and reject, and one
    list fetch per tab. */
module IncomingRequests {
  import opened Common
  import opened Requests

  /** The list the tab effect fetches: one per tab, the friends for any tab
      other than incoming and sent. */
  function FetchFor(tab: string): (r: ListKind)
    ensures r == IncomingList <==> tab == "incoming"
    ensures r == SentList <==> tab == "sent"
  {
    if tab == "incoming" then IncomingList else if tab == "sent" then SentList else FriendsList
  }

  /** The list rendered under a tab. */
  function DisplayedList(tab: string): ListKind {
    if tab == "incoming" then IncomingList else if tab == "sent" then SentList else FriendsList
  }

  /** Every tab fetches exactly the list it shows. */
  lemma FetchesWhatIsShown(tab: string)
    ensures FetchFor(tab) == DisplayedList(tab)
  {
  }

  class IncomingPanel {
    var activeTab: string
    var incoming: seq<Request>
    var sent: seq<Request>
    var friends: seq<Request>

    constructor ()
      ensures activeTab == "incoming" && incoming == [] && sent == [] && friends == []
    {
      activeTab := "incoming";
      incoming, sent, friends := [], [], [];
    }

    method FetchIncoming(res: FetchResult)
      modifies this`incoming
      ensures incoming == AfterFetch(old(incoming), res)
    {
      incoming := AfterFetch(incoming, res);
    }

    method FetchSent(res: FetchResult)
      modifies this`sent
      ensures sent == AfterFetch(old(sent), res)
    {
      sent := AfterFetch(sent, res);
    }

    method FetchFriends(res: FetchResult)
      modifies this`friends
      ensures friends == AfterFetch(old(friends), res)
    {
      friends := AfterFetch(friends, res);
    }

    /** `acceptRequest`: only a successful call removes the request. */
    method AcceptRequest(requestId: string, accepted: bool)
      modifies this`incoming
      ensures incoming == if accepted then RemoveRequest(old(incoming), requestId) else old(incoming)
    {
      if accepted {
        incoming := RemoveRequest(incoming, requestId);
      }
    }

    /** `rejectRequest`: only a successful call removes the request. */
    method RejectRequest(requestId: string, rejected: bool)
      modifies this`incoming
      ensures incoming == if rejected then RemoveRequest(old(incoming), requestId) else old(incoming)
    {
      if rejected {
        incoming := RemoveRequest(incoming, requestId);
      }
    }

    /** The tab effect on mount: the initial tab's list is fetched. */
    method Mount() returns (fetch: ListKind)
      ensures fetch == FetchFor(activeTab)
      ensures activeTab == "incoming" ==> fetch == IncomingList
    {
      fetch := FetchFor(activeTab);
    }

    /** A tab button; the tab effect fetches only when the tab changes. */
    method SelectTab(tab: string) returns (fetch: Option<ListKind>)
      modifies this`activeTab
      ensures activeTab == tab
      ensures fetch == if tab == old(activeTab) then None else Some(FetchFor(tab))
    {
      fetch := if tab == activeTab then None else Some(FetchFor(tab));
      activeTab := tab;
    }
  }
}
