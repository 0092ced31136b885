/** The action buttons of a user card, decided from whether the card shows an
    incoming request, the user's `friendRequestStatus` (absent for a stranger)
    and whether an `onOpenChat` callback is given. */
module UserCard {
  import opened Common

  datatype Label = Accept | Reject | Pending | Follow | Friends | MessageButton

  /** A rendered button; `enabled` is false for the disabled ones. */
  datatype Button = Button(kind: Label, enabled: bool)

  /** The buttons `renderActions` returns, in render order. */
  function Actions(isIncomingRequest: bool, status: Option<string>, hasOpenChat: bool): (r: seq<Button>)
    ensures 1 <= |r| <= 2
    ensures forall i :: 0 <= i < |r| ==> (r[i].enabled <==> r[i].kind !in {Pending, Friends})
  {
    if isIncomingRequest && status == Some("pending") then
      [Button(Accept, true), Button(Reject, true)]
    else if status == Some("pending") then
      [Button(Pending, false)]
    else if status == Some("rejected") then
      [Button(Follow, true)]
    else if status == Some("accepted") then
      [Button(Friends, false)] + (if hasOpenChat then [Button(MessageButton, true)] else [])
    else
      [Button(Follow, true)]
  }

  /** An incoming pending request offers exactly Accept and Reject. */
  lemma IncomingPendingOffersChoice(hasOpenChat: bool)
    ensures Actions(true, Some("pending"), hasOpenChat) == [Button(Accept, true), Button(Reject, true)]
  {
  }

  /** A pending request on any other card is a single disabled Pending. */
  lemma OutgoingPendingIsDisabled(hasOpenChat: bool)
    ensures Actions(false, Some("pending"), hasOpenChat) == [Button(Pending, false)]
  {
  }

  /** Follow is offered exactly for a non-pending, non-accepted status: a
      rejected request, any unrecognised status, or none. */
  lemma FollowCases(isIncomingRequest: bool, status: Option<string>, hasOpenChat: bool)
    ensures Actions(isIncomingRequest, status, hasOpenChat) == [Button(Follow, true)] <==>
      status != Some("pending") && status != Some("accepted")
  {
    var r := Actions(isIncomingRequest, status, hasOpenChat);
    if status == Some("pending") || status == Some("accepted") {
      assert r[0] != Button(Follow, true);
    }
  }

  /** An accepted friend shows Friends, and a Message button exactly when
      `onOpenChat` is given. */
  lemma AcceptedShowsFriends(isIncomingRequest: bool, hasOpenChat: bool)
    ensures Actions(isIncomingRequest, Some("accepted"), hasOpenChat)[0] == Button(Friends, false)
    ensures Button(MessageButton, true) in Actions(isIncomingRequest, Some("accepted"), hasOpenChat) <==> hasOpenChat
  {
  }

  /** Message is never offered except to an accepted friend, and Accept and
      Reject only on an incoming pending request. */
  lemma ButtonsNeedTheirStatus(isIncomingRequest: bool, status: Option<string>, hasOpenChat: bool, i: int)
    requires 0 <= i < |Actions(isIncomingRequest, status, hasOpenChat)|
    ensures Actions(isIncomingRequest, status, hasOpenChat)[i].kind == MessageButton ==>
      status == Some("accepted") && hasOpenChat
    ensures Actions(isIncomingRequest, status, hasOpenChat)[i].kind in {Accept, Reject} <==>
      isIncomingRequest && status == Some("pending")
  {
  }

  /** An incoming card whose status is not pending gets the same buttons as
      any other card. */
  lemma IncomingFallsThrough(status: Option<string>, hasOpenChat: bool)
    requires status != Some("pending")
    ensures Actions(true, status, hasOpenChat) == Actions(false, status, hasOpenChat)
  {
  }
}
