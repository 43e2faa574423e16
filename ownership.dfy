/** The ownership and capacity rules are written out separately in the event
    card, the events page filter and the details page; these lemmas show that
    the copies agree. */
module Ownership {
  import opened Types
  import EventCard
  import EventsPage
  import EventsDetails

  /** With a non-null organizer the three ownership checks give the same answer. */
  lemma OwnershipChecksAgree(user: Option<User>, e: Event)
    requires e.organizer.Some?
    ensures EventCard.IsCreator(user, e) == EventsPage.IsMine(user, e) == Ok(EventsDetails.IsOwner(user, e))
  {
  }

  /** With a null organizer and a user, the card and the list filter throw, while
      the details page's own check is false; the details page then throws when it
      reads the organizer's name. Without a user all three say "not mine". */
  lemma NullOrganizer(user: Option<User>, e: Event)
    requires e.organizer.None?
    ensures user.Some? ==> EventCard.IsCreator(user, e).TypeError? && EventsPage.IsMine(user, e).TypeError?
    ensures user.None? ==> EventCard.IsCreator(user, e) == EventsPage.IsMine(user, e) == Ok(false)
    ensures !EventsDetails.IsOwner(user, e) && EventsDetails.OrganizerName(e).TypeError?
  {
  }

  /** Every card in the "My Events" tab shows the bookings panel. */
  lemma ManagedCardsShowBookings(user: Option<User>, events: seq<Event>, mine: seq<Event>)
    requires EventsPage.MyEvents(user, events) == Ok(mine)
    ensures forall e :: e in mine ==> EventCard.Action(user, e) == Ok(EventCard.ViewBookings)
  {
    forall e | e in mine
      ensures EventCard.Action(user, e) == Ok(EventCard.ViewBookings)
    {
      assert EventsPage.IsMine(user, e) == Ok(true);
      OwnershipChecksAgree(user, e);
    }
  }

  /** An event is in "My Events" iff its card's creator check holds. */
  lemma MyEventsAreCreatorCards(user: Option<User>, events: seq<Event>, mine: seq<Event>, e: Event)
    requires EventsPage.MyEvents(user, events) == Ok(mine)
    requires e in events
    ensures e in mine <==> EventCard.IsCreator(user, e) == Ok(true)
  {
    if e.organizer.Some? {
      OwnershipChecksAgree(user, e);
    } else {
      assert EventsPage.IsMine(user, e) != Ok(true);
    }
  }

  /** The details badge reads "Available" exactly when the card is not full. */
  lemma AvailableIsNotFull(e: Event)
    ensures EventsDetails.Available(e) <==> !EventCard.IsFull(e)
  {
  }

  /** The details page's "a similar card throws" is exactly "some similar
      event's card action throws". */
  lemma SimilarCardsMatchCardAction(similar: seq<Event>, user: Option<User>)
    ensures EventsDetails.SimilarCardThrows(similar, user) <==>
              exists i :: 0 <= i < |similar| && EventCard.Action(user, similar[i]).TypeError?
  {
    if EventsDetails.SimilarCardThrows(similar, user) {
      var i :| 0 <= i < |similar| && similar[i].organizer.None?;
      NullOrganizer(user, similar[i]);
    }
  }
}
