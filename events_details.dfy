/** The event details page (src/pages/EventsDetails.tsx): the current event,
    the similar events at the same location, ownership, the availability
    badge, the gallery and the delete action. */
module EventsDetails {
  import opened Types
  import opened Effects
  import Seqs

  const DetailsPlaceholder := "https://placehold.co/800x400"

  /** The filter callback for similar events. */
  predicate IsSimilar(current: Event, e: Event) {
    e.location == current.location && e.docId != current.docId
  }

  /** The other events at the current event's location, in their original order. */
  function Related(current: Event, all: seq<Event>): (r: seq<Event>)
    ensures forall i :: 0 <= i < |r| ==> r[i].location == current.location && r[i].docId != current.docId
    ensures forall e :: e in r <==> e in all && IsSimilar(current, e)
    ensures Seqs.IsSubsequence(r, all)
    ensures forall e :: multiset(r)[e] == if IsSimilar(current, e) then multiset(all)[e] else 0
  {
    if all == [] then []
    else
      var rest := Related(current, all[1..]);
      assert forall e :: e in all <==> e == all[0] || e in all[1..];
      assert all == [all[0]] + all[1..];
      if IsSimilar(current, all[0]) then [all[0]] + rest else rest
  }

  /** `currentUser && event.organizer && (currentUser.id === organizer._id ||
      currentUser.id === organizer.id)`: a null organizer makes it false. */
  function IsOwner(user: Option<User>, e: Event): (r: bool)
    ensures r ==> user.Some? && e.organizer.Some?
    ensures user.Some? && e.organizer.Some? ==>
              (r <==> user.value.id == e.organizer.value.docId || user.value.id == e.organizer.value.id)
  {
    user.Some? && e.organizer.Some? &&
    (user.value.id == e.organizer.value.docId || user.value.id == e.organizer.value.id)
  }

  /** The badge reads "Available" iff `capacity - attendees.length > 0`, else "Sold Out". */
  function Available(e: Event): (r: bool)
    ensures r <==> |e.attendees| < e.capacity
  {
    e.capacity - |e.attendees| > 0
  }

  /** `organizer.name || 'Unknown'`; the organizer itself is read without a null check. */
  function OrganizerName(e: Event): (r: Outcome<string>)
    ensures r.TypeError? <==> e.organizer.None?
    ensures r.Ok? && Truthy(e.organizer.value.name) ==> r.value == e.organizer.value.name.value
    ensures r.Ok? && !Truthy(e.organizer.value.name) ==> r.value == "Unknown"
  {
    match e.organizer
    case None => TypeError
    case Some(o) => Ok(OrElse(o.name, "Unknown"))
  }

  datatype Pictures = Photos(srcs: seq<string>) | Single(src: string)

  /** All of `images` when it is a non-empty list, else `image || placeholder`. */
  function Gallery(e: Event): (r: Pictures)
    ensures r.Photos? <==> e.images.Some? && |e.images.value| > 0
    ensures r.Photos? ==> r.srcs == e.images.value && |r.srcs| > 0
    ensures r.Single? && Truthy(e.image) ==> r.src == e.image.value
    ensures r.Single? && !Truthy(e.image) ==> r.src == DetailsPlaceholder
  {
    if e.images.Some? && |e.images.value| > 0 then Photos(e.images.value)
    else Single(OrElse(e.image, DetailsPlaceholder))
  }

  /** The page's state: the fetched event, its similar events, and the loading flag. */
  datatype DetailsState = DetailsState(event: Option<Event>, similar: seq<Event>, loading: bool)

  const InitialState := DetailsState(None, [], true)

  /** The fetch effect starts by raising the loading flag. */
  function FetchStarted(s: DetailsState): (r: DetailsState)
    ensures r.loading && r.event == s.event && r.similar == s.similar
  {
    s.(loading := true)
  }

  /** Both requests settled together: on success the event and its similar
      events are stored; either way loading ends. */
  function FetchSettled(s: DetailsState, reply: Reply<(Event, seq<Event>)>): (r: DetailsState)
    ensures !r.loading
    ensures reply.Success? ==> r.event == Some(reply.data.0) && r.similar == Related(reply.data.0, reply.data.1)
    ensures reply.Failure? ==> r.event == s.event && r.similar == s.similar
  {
    match reply
    case Success((current, all)) => DetailsState(Some(current), Related(current, all), false)
    case Failure(_) => s.(loading := false)
  }

  /** What the page renders once an event is loaded. */
  datatype Details = Details(
    event: Event,
    deleteOffered: bool,
    gallery: Pictures,
    available: bool,
    organizerName: string,
    similar: seq<Event>)

  datatype Screen = Spinner | Page(details: Details)

  /** Whether one of the similar events' cards throws while rendering: each
      card's creator test reads its organizer's properties whenever a user is
      cached, and a null organizer makes that read fail. */
  predicate SimilarCardThrows(similar: seq<Event>, user: Option<User>) {
    user.Some? && exists i :: 0 <= i < |similar| && similar[i].organizer.None?
  }

  /** The page: a spinner while loading or without an event; otherwise the
      details, unless reading the organizer's name, or rendering one of the
      similar events' cards, throws. */
  function View(s: DetailsState, user: Option<User>): (r: Outcome<Screen>)
    ensures s.loading || s.event.None? ==> r == Ok(Spinner)
    ensures !s.loading && s.event.Some? ==>
              (r.TypeError? <==> s.event.value.organizer.None? || SimilarCardThrows(s.similar, user))
    ensures !s.loading && s.event.Some? && r.Ok? ==>
              r.value.Page? && OrganizerName(s.event.value) == Ok(r.value.details.organizerName)
    ensures r.Ok? && r.value.Page? ==>
              !s.loading && s.event == Some(r.value.details.event) &&
              r.value.details.deleteOffered == IsOwner(user, s.event.value) &&
              r.value.details.available == Available(s.event.value) &&
              r.value.details.gallery == Gallery(s.event.value) &&
              r.value.details.similar == s.similar
  {
    if s.loading || s.event.None? then Ok(Spinner)
    else
      var e := s.event.value;
      match OrganizerName(e)
      case TypeError => TypeError
      case Ok(name) =>
        if SimilarCardThrows(s.similar, user) then TypeError
        else Ok(Page(Details(e, IsOwner(user, e), Gallery(e), Available(e), name, s.similar)))
  }

  /** The delete button: after confirmation, `DELETE /events/<route id>`, then
      home on success or an alert on failure. Without confirmation nothing happens. */
  function HandleDelete(routeId: string, confirmed: bool, reply: Reply<()>): (fx: seq<Effect>)
    ensures !confirmed ==> fx == []
    ensures confirmed ==> Requests(fx) == 1 && fx[0] == Request(Delete, "/events/" + routeId, NoBody)
    ensures confirmed && reply.Success? ==> fx[1..] == [Navigate("/", false)]
    ensures confirmed && reply.Failure? ==> fx[1..] == [Alert(FailureText(reply, "Delete Failed"))]
  {
    if !confirmed then []
    else
      var req := [Request(Delete, "/events/" + routeId, NoBody)];
      var after := match reply
                   case Success(_) => [Navigate("/", false)]
                   case Failure(_) => [Alert(FailureText(reply, "Delete Failed"))];
      RequestsAppend(req, after);
      req + after
  }
}
