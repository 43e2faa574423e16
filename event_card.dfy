/** The event card (src/components/EventCard.tsx): who owns the event, who
    attends it, how many seats are left, which picture is shown and which of
    the four actions the card offers. */
module EventCard {
  import opened Types
  import opened Effects
  import EventsDetails

  const CardPlaceholder := "https://placehold.co/400x200"

  /** The creator check: with a user, the organizer's `_id` or `id` must equal
      `user.id`. With a user and a null organizer the property read throws. */
  function IsCreator(user: Option<User>, e: Event): (r: Outcome<bool>)
    ensures user.None? ==> r == Ok(false)
    ensures r.TypeError? <==> user.Some? && e.organizer.None?
    ensures r == Ok(true) <==>
              user.Some? && e.organizer.Some? &&
              (user.value.id == e.organizer.value.docId || user.value.id == e.organizer.value.id)
  {
    match user
    case None => Ok(false)
    case Some(u) =>
      match e.organizer
      case None => TypeError
      case Some(o) => Ok(u.id == o.docId || u.id == o.id)
  }

  /** One attendee entry against `user.id`: `att._id === user.id || att === user.id`.
      A bare id has no `_id` property, so its `att._id` is `undefined`, which
      equals a missing `user.id`. */
  predicate AttendeeIs(a: Attendee, uid: Option<string>)
    ensures uid.None? ==> (AttendeeIs(a, uid) <==> a.AttendeeRef? || a.docId.None?)
    ensures uid.Some? ==>
              (AttendeeIs(a, uid) <==> (a.AttendeeRef? && a.ref == uid.value) || (a.AttendeeDoc? && a.docId == uid))
  {
    match a
    case AttendeeRef(x) => uid.None? || uid == Some(x)
    case AttendeeDoc(d, _, _, _, _) => d == uid
  }

  /** `attendees.some(...)`, scanning from the front. */
  function SomeAttendee(atts: seq<Attendee>, uid: Option<string>): (r: bool)
    ensures r <==> exists i :: 0 <= i < |atts| && AttendeeIs(atts[i], uid)
  {
    if atts == [] then false
    else if AttendeeIs(atts[0], uid) then
      assert AttendeeIs(atts[0], uid);
      true
    else
      var rest := SomeAttendee(atts[1..], uid);
      assert forall i :: 1 <= i < |atts| ==> atts[i] == atts[1..][i - 1];
      rest
  }

  function IsJoined(user: Option<User>, e: Event): (r: bool)
    ensures user.None? ==> !r
    ensures r <==> user.Some? && exists i :: 0 <= i < |e.attendees| && AttendeeIs(e.attendees[i], user.value.id)
  {
    match user
    case None => false
    case Some(u) => SomeAttendee(e.attendees, u.id)
  }

  /** Seats left: capacity minus attendees, not clamped, so it may be negative. */
  function SeatsLeft(e: Event): (r: int)
    ensures r + |e.attendees| == e.capacity
  {
    e.capacity - |e.attendees|
  }

  function IsFull(e: Event): (r: bool)
    ensures r <==> SeatsLeft(e) <= 0
  {
    |e.attendees| >= e.capacity
  }

  /** The seats-left text is red only at exactly zero seats, not for an overbooked event. */
  function SeatsTextRed(e: Event): (r: bool)
    ensures r ==> IsFull(e)
    ensures r <==> |e.attendees| == e.capacity
  {
    SeatsLeft(e) == 0
  }

  datatype CardAction = ViewBookings | Attending | Housefull | Rsvp

  /** The action area of the card: the bookings panel for the creator, else
      "attending", else "housefull", else the RSVP button. */
  function Action(user: Option<User>, e: Event): (r: Outcome<CardAction>)
    ensures r.TypeError? <==> IsCreator(user, e).TypeError?
    ensures r == Ok(ViewBookings) <==> IsCreator(user, e) == Ok(true)
    ensures r == Ok(Attending) <==> IsCreator(user, e) == Ok(false) && IsJoined(user, e)
    ensures r == Ok(Housefull) <==> IsCreator(user, e) == Ok(false) && !IsJoined(user, e) && IsFull(e)
    ensures r == Ok(Rsvp) <==> IsCreator(user, e) == Ok(false) && !IsJoined(user, e) && !IsFull(e)
  {
    match IsCreator(user, e)
    case TypeError => TypeError
    case Ok(creator) =>
      if creator then Ok(ViewBookings)
      else if IsJoined(user, e) then Ok(Attending)
      else if IsFull(e) then Ok(Housefull)
      else Ok(Rsvp)
  }

  /** Every rendered card shows exactly one action, and the precedence rules out
      an RSVP button for the creator and "housefull" for an attendee. */
  lemma ActionIsExclusive(user: Option<User>, e: Event)
    requires Action(user, e).Ok?
    ensures IsCreator(user, e) == Ok(true) ==> Action(user, e) != Ok(Rsvp)
    ensures IsJoined(user, e) ==> Action(user, e) != Ok(Housefull)
    ensures user.None? ==> Action(user, e) == (if IsFull(e) then Ok(Housefull) else Ok(Rsvp))
  {
  }

  /** The RSVP handler. Without a user it only alerts; otherwise it posts to
      `/events/<id>/rsvp` and, on success, alerts and asks the parent to refresh. */
  function HandleRsvp(user: Option<User>, e: Event, reply: Reply<()>): (fx: seq<Effect>)
    ensures user.None? ==> fx == [Alert("Please login to join events")] && Requests(fx) == 0
    ensures user.Some? ==> Requests(fx) == 1 && fx[0] == Request(Post, "/events/" + e.docId + "/rsvp", NoBody)
    ensures user.Some? && reply.Success? ==> fx[1..] == [Alert("You have successfully joined!"), Refresh]
    ensures user.Some? && reply.Failure? ==> fx[1..] == [Alert(FailureText(reply, "Error joining event"))]
  {
    if user.None? then
      [Alert("Please login to join events")]
    else
      var post := [Request(Post, "/events/" + e.docId + "/rsvp", NoBody)];
      var after := match reply
                   case Success(_) => [Alert("You have successfully joined!"), Refresh]
                   case Failure(_) => [Alert(FailureText(reply, "Error joining event"))];
      RequestsAppend(post, after);
      post + after
  }

  /** The card picture: the first of `images`, else `image`, else the
      placeholder. It is the lead picture of the details page gallery, apart
      from the placeholder size. */
  method DisplayImage(e: Event) returns (src: string)
    ensures e.images.Some? && |e.images.value| > 0 ==> src == e.images.value[0]
    ensures !(e.images.Some? && |e.images.value| > 0) && Truthy(e.image) ==> src == e.image.value
    ensures !(e.images.Some? && |e.images.value| > 0) && !Truthy(e.image) ==> src == CardPlaceholder
    ensures match EventsDetails.Gallery(e)
            case Photos(ps) => src == ps[0]
            case Single(s) => src == if Truthy(e.image) then s else CardPlaceholder
  {
    src := CardPlaceholder;
    if e.images.Some? && |e.images.value| > 0 {
      src := e.images.value[0];
    } else if Truthy(e.image) {
      src := e.image.value;
    }
  }

  /** The card's local state: whether the creator has opened the bookings list. */
  class CardState {
    var showAttendees: bool

    constructor ()
      ensures !showAttendees
    {
      showAttendees := false;
    }

    /** The "View Bookings" button. */
    method ToggleBookings()
      modifies this
      ensures showAttendees == !old(showAttendees)
    {
      showAttendees := !showAttendees;
    }

    /** Below the button: nothing, a "No bookings yet." note, or the attendee list. */
    function BookingsList(e: Event): (r: Option<seq<Attendee>>)
      reads this
      ensures r.Some? <==> showAttendees
      ensures r.Some? ==> r.value == e.attendees
    {
      if showAttendees then Some(e.attendees) else None
    }
  }
}
