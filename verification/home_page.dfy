/** The home page's friend-request bookkeeping: which recommended users
    already have a pending request from the current user, how their send
    button behaves, and the friend-count label. */
module HomePage {
  import opened Options
  import opened Decimal
  import opened Text

  /** An outgoing friend request; only the recipient's id matters here. */
  datatype OutgoingRequest = OutgoingRequest(recipientId: string)

  /** The state cell starts as an empty set. */
  function InitialSentIds(): (sent: set<string>)
    ensures forall id :: !HasRequestBeenSent(sent, id)
  {
    {}
  }

  /** The ids `forEach` adds to a fresh set, one request after another. */
  function RecipientIds(reqs: seq<OutgoingRequest>): (ids: set<string>)
    ensures forall id :: id in ids <==> exists k :: 0 <= k < |reqs| && reqs[k].recipientId == id
  {
    if |reqs| == 0 then {}
    else RecipientIds(reqs[..|reqs| - 1]) + {reqs[|reqs| - 1].recipientId}
  }

  /** The effect on the outgoing-requests query data: rebuild the set when the
      list is present and non-empty, otherwise keep the previous set. */
  function UpdateSentIds(current: set<string>, reqs: Option<seq<OutgoingRequest>>): (sent: set<string>)
    ensures reqs.Some? && |reqs.value| > 0 ==>
      forall id :: id in sent <==> exists k :: 0 <= k < |reqs.value| && reqs.value[k].recipientId == id
    ensures reqs.None? || |reqs.value| == 0 ==> sent == current
  {
    if reqs.Some? && |reqs.value| > 0 then RecipientIds(reqs.value) else current
  }

  /** A recommended user is shown as "Request Sent". */
  predicate HasRequestBeenSent(sent: set<string>, userId: string)
  {
    userId in sent
  }

  /** After a non-empty list arrives, a user shows "Request Sent" exactly when
      some request in it is addressed to them; earlier entries do not survive. */
  lemma SentAfterUpdate(current: set<string>, reqs: seq<OutgoingRequest>, userId: string)
    requires |reqs| > 0
    ensures HasRequestBeenSent(UpdateSentIds(current, Some(reqs)), userId)
        <==> exists k :: 0 <= k < |reqs| && reqs[k].recipientId == userId
  {
  }

  /** An absent or empty list leaves stale entries in place: a user whose
      request is no longer outgoing keeps showing "Request Sent". */
  lemma EmptyListKeepsStaleEntries(current: set<string>, userId: string)
    requires HasRequestBeenSent(current, userId)
    ensures HasRequestBeenSent(UpdateSentIds(current, Some([])), userId)
    ensures HasRequestBeenSent(UpdateSentIds(current, None), userId)
  {
  }

  /** Applying the same list twice changes nothing more. */
  lemma UpdateIdempotent(current: set<string>, reqs: Option<seq<OutgoingRequest>>)
    ensures UpdateSentIds(UpdateSentIds(current, reqs), reqs) == UpdateSentIds(current, reqs)
  {
  }

  /** The set depends only on which recipients occur: order and duplicates
      in the list do not matter. */
  lemma UpdateIgnoresOrderAndDuplicates(current: set<string>, a: seq<OutgoingRequest>, b: seq<OutgoingRequest>)
    requires |a| > 0 && |b| > 0
    requires forall r :: r in a <==> r in b
    ensures UpdateSentIds(current, Some(a)) == UpdateSentIds(current, Some(b))
  {
    var x := UpdateSentIds(current, Some(a));
    var y := UpdateSentIds(current, Some(b));
    forall id | id in x
      ensures id in y
    {
      var k :| 0 <= k < |a| && a[k].recipientId == id;
      assert a[k] in b;
    }
    forall id | id in y
      ensures id in x
    {
      var k :| 0 <= k < |b| && b[k].recipientId == id;
      assert b[k] in a;
    }
  }

  /** The send button of one recommended user. */
  datatype SendButton = SendButton(caption: string, disabled: bool)

  function RenderSendButton(userId: string, sent: set<string>, isPending: bool): (b: SendButton)
    ensures b.disabled <==> HasRequestBeenSent(sent, userId) || isPending
    ensures b.caption == "Request Sent" <==> HasRequestBeenSent(sent, userId)
    ensures !HasRequestBeenSent(sent, userId) ==> b.caption == "Send Friend Request"
  {
    var hasRequestBeenSent := HasRequestBeenSent(sent, userId);
    SendButton(if hasRequestBeenSent then "Request Sent" else "Send Friend Request",
               hasRequestBeenSent || isPending)
  }

  /** A click on the button: a disabled button delivers no click; an enabled
      one asks the mutation to send a request to exactly this user. */
  function ClickSendButton(userId: string, sent: set<string>, isPending: bool): (request: Option<string>)
    ensures request.Some? <==> !HasRequestBeenSent(sent, userId) && !isPending
    ensures request.Some? ==> request.value == userId
  {
    if RenderSendButton(userId, sent, isPending).disabled then None else Some(userId)
  }

  /** The text under "Your Friends": the count, then "language partner",
      pluralised unless the count is exactly one, then "connected". */
  function FriendsLabel(count: nat): string
  {
    NatToString(count) + " language partner" + (if count != 1 then "s" else "") + " connected"
  }

  /** The label is plural exactly when the count is not one. */
  lemma FriendsLabelPlural(count: nat)
    ensures EndsWith(FriendsLabel(count), "partners connected") <==> count != 1
    ensures EndsWith(FriendsLabel(count), " partner connected") <==> count == 1
  {
    var plural, singular := "partners connected", " partner connected";
    var tail := if count != 1 then " " + plural else singular;
    var head := NatToString(count) + " language";
    assert FriendsLabel(count) == head + tail;
    EndsWithAppend(head, tail, plural);
    EndsWithAppend(head, tail, singular);
    if count == 1 {
      assert !EndsWith(tail, plural) by {
        assert tail[0] != plural[0];
      }
    } else {
      assert !EndsWith(tail, singular) by {
        assert tail[|tail| - |singular|..][0] != singular[0];
      }
    }
  }

  /** The label opens with the count written in decimal, then a space. */
  lemma FriendsLabelShowsCount(count: nat)
    ensures var text := FriendsLabel(count);
      var k := |NatToString(count)|;
      && k < |text| && text[k] == ' ' && AllDigits(text[..k]) && StringToNat(text[..k]) == count
  {
    var text := FriendsLabel(count);
    var k := |NatToString(count)|;
    assert text[..k] == NatToString(count);
    NatToStringRoundTrip(count);
  }
}
