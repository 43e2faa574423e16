/** The events list page (src/pages/EventsPage.tsx): the "Discover" tab shows
    every fetched event, the "My Events" tab those the cached user organizes. */
module EventsPage {
  import opened Types
  import opened Effects
  import Seqs

  /** The filter callback: `user && (organizer._id === user.id || organizer.id === user.id)`.
      With a user and a null organizer the property read throws. */
  function IsMine(user: Option<User>, e: Event): (r: Outcome<bool>)
    ensures user.None? ==> r == Ok(false)
    ensures r.TypeError? <==> user.Some? && e.organizer.None?
  {
    if user.None? then Ok(false)
    else if e.organizer.None? then TypeError
    else Ok(e.organizer.value.docId == user.value.id || e.organizer.value.id == user.value.id)
  }

  /** `events.filter(IsMine)`: the callback runs front to back and a throw
      aborts the whole filter. */
  function MyEvents(user: Option<User>, events: seq<Event>): (r: Outcome<seq<Event>>)
    ensures user.None? ==> r == Ok([])
    ensures r.TypeError? <==> user.Some? && exists i :: 0 <= i < |events| && events[i].organizer.None?
    ensures r.Ok? ==> forall e :: e in r.value <==> e in events && IsMine(user, e) == Ok(true)
    ensures r.Ok? ==> Seqs.IsSubsequence(r.value, events)
    ensures r.Ok? ==> forall e :: multiset(r.value)[e] == if IsMine(user, e) == Ok(true) then multiset(events)[e] else 0
  {
    if events == [] then Ok([])
    else
      assert forall e :: e in events <==> e == events[0] || e in events[1..];
      assert events == [events[0]] + events[1..];
      assert forall i :: 1 <= i < |events| ==> events[i] == events[1..][i - 1];
      match IsMine(user, events[0])
      case TypeError => TypeError
      case Ok(keep) =>
        match MyEvents(user, events[1..])
        case TypeError => TypeError
        case Ok(rest) => Ok(if keep then [events[0]] + rest else rest)
  }

  datatype Tab = Discover | Manage

  /** The page's state; `events` and `loading` only wrap the fetch. */
  datatype PageState = PageState(events: seq<Event>, loading: bool, activeTab: Tab)

  const InitialState := PageState([], true, Discover)

  /** `fetchEvents`: the list is replaced on success and kept on failure;
      loading ends either way. */
  function FetchSettled(s: PageState, reply: Reply<seq<Event>>): (r: PageState)
    ensures !r.loading && r.activeTab == s.activeTab
    ensures reply.Success? ==> r.events == reply.data
    ensures reply.Failure? ==> r.events == s.events
  {
    match reply
    case Success(data) => s.(events := data, loading := false)
    case Failure(_) => s.(loading := false)
  }

  /** The "My Events" tab button is rendered only for a cached user. */
  predicate ManageTabShown(user: Option<User>)
    ensures ManageTabShown(user) <==> user.Some?
  {
    user.Some?
  }

  /** A tab click. The "My Events" button exists only with a user, so selecting
      that tab needs one; "Discover" is always there. */
  function SelectTab(s: PageState, user: Option<User>, t: Tab): (r: PageState)
    requires t == Manage ==> ManageTabShown(user)
    ensures r.activeTab == t && r.events == s.events && r.loading == s.loading
  {
    s.(activeTab := t)
  }

  datatype Screen =
    | Loading
    | DiscoverList(cards: seq<Event>)
    | ManageList(total: nat, cards: seq<Event>)

  /** The page. Once loaded, `myEvents` is computed before either tab is
      rendered, so its TypeError breaks both tabs. */
  function View(s: PageState, user: Option<User>): (r: Outcome<Screen>)
    ensures s.loading ==> r == Ok(Loading)
    ensures !s.loading ==> (r.TypeError? <==> MyEvents(user, s.events).TypeError?)
    ensures !s.loading && MyEvents(user, s.events).Ok? ==>
              r == Ok(if s.activeTab == Discover then DiscoverList(s.events)
                      else ManageList(|MyEvents(user, s.events).value|, MyEvents(user, s.events).value))
    ensures r.Ok? && r.value.DiscoverList? ==> !s.loading && s.activeTab == Discover && r.value.cards == s.events
    ensures r.Ok? && r.value.ManageList? ==>
              !s.loading && s.activeTab == Manage &&
              MyEvents(user, s.events) == Ok(r.value.cards) && r.value.total == |r.value.cards| <= |s.events|
  {
    if s.loading then Ok(Loading)
    else
      match MyEvents(user, s.events)
      case TypeError => TypeError
      case Ok(mine) =>
        match s.activeTab
        case Discover => Ok(DiscoverList(s.events))
        case Manage =>
          Seqs.SubsequenceLength(mine, s.events);
          Ok(ManageList(|mine|, mine))
  }
}
