# ROCsEventS client: the local decision logic, in Dafny

The ROCsEventS front end lists events, lets users log in or register, create
events with up to ten pictures, RSVP, and edit their profile. All data lives in
a remote service. What the client decides for itself is modelled here:

- who owns an event and who attends it;
- seats left, "full" and "available";
- which action a card offers;
- which picture is shown;
- the "My Events" and "similar events" filters;
- the small state machines of the create form, the navbar search and
  profile menus, the login/register form, the profile form and the sidebar;
- the route guard.

Modelling conventions:

- **Records** (`Types`) follow `src/types.ts`. The cached user is parsed
  JSON, so every property of `User` is optional. This is faithful in two
  places where JavaScript compares `undefined`. A user without `id` matches
  an organizer without `_id`, because `undefined === undefined`. Such a user
  also matches every bare-id attendee, because a string's `_id` is `undefined`.
- **A missing organizer is a crash.** An event's `organizer` may be null.
  Three places read its properties without a check: the card's creator test
  (EventCard.tsx:20), the "My Events" filter (EventsPage.tsx:39) and the
  organizer name on the details page (EventsDetails.tsx:109). Each of these
  yields `Outcome.TypeError` instead of a value. The details page's `isOwner`
  (line 65) does check for null.
- **Storage** (`Storage`) is a map from key to item. An item is a text or an
  already-decoded user record, under the keys `"token"` and `"user"`.
- **Outside effects.** Alerts, navigation, requests, the `auth-change`
  broadcast and the refresh callback are `Effects.Effect` values that the
  operations return. Every reply from the service is an input (`Reply`).
- **Disabled buttons** (login/register while loading) are modelled as clicks
  that change nothing.
- **String length** is JavaScript's `.length`, counted in UTF-16 code units
  (`Types.Utf16Length`). A single emoji therefore already reaches the
  two-character search threshold.

## Model

| member | source | states |
|---|---|---|
| EventCard.IsCreator | src/components/EventCard.tsx:20 | no user: not creator; user and null organizer: TypeError; else creator iff `user.id` equals the organizer's `_id` or `id` |
| EventCard.AttendeeIs | src/components/EventCard.tsx:23 | with a user id, an entry matches iff it is that bare id or a document with that `_id`; without one, a bare id or a document without `_id` matches |
| EventCard.SomeAttendee | src/components/EventCard.tsx:23 | the `.some` scan is true iff some attendee entry matches the id |
| EventCard.IsJoined | src/components/EventCard.tsx:23 | no user: not joined; else joined iff some attendee is a document whose `_id` is `user.id` or is the bare id |
| EventCard.SeatsLeft | src/components/EventCard.tsx:26 | seats left plus attendees is the capacity, with no clamping, so the value may be negative |
| EventCard.IsFull | src/components/EventCard.tsx:25 | full iff seats left is at most zero |
| EventCard.SeatsTextRed | src/components/EventCard.tsx:76 | red iff attendees equal the capacity exactly; red implies full, but an overbooked card is not red |
| EventCard.Action | src/components/EventCard.tsx:83-138 | exactly one of bookings panel / attending / housefull / RSVP, each characterised iff by the creator, joined and full tests in that precedence; TypeError iff the creator test throws |
| EventCard.ActionIsExclusive | src/components/EventCard.tsx:83-138 | a creator never gets RSVP, an attendee never sees housefull, and without a user the action is housefull or RSVP by fullness |
| EventCard.HandleRsvp | src/components/EventCard.tsx:36-46 | no user: only the "Please login" alert and no request; with a user exactly one POST to `/events/<id>/rsvp`, then success alert and refresh, or the error message |
| EventCard.DisplayImage | src/components/EventCard.tsx:28-34 | `images[0]` if non-empty, else a truthy `image`, else the placeholder; also the lead picture of the details gallery |
| EventCard.CardState.constructor | src/components/EventCard.tsx:16 | the bookings list starts closed |
| EventCard.CardState.ToggleBookings | src/components/EventCard.tsx:86 | the "View Bookings" button flips `showAttendees` |
| EventCard.CardState.BookingsList | src/components/EventCard.tsx:94-118 | the attendee list is rendered iff `showAttendees` |
| EventsPage.IsMine | src/pages/EventsPage.tsx:38-40 | the filter callback: false without a user, TypeError for a user and a null organizer |
| EventsPage.MyEvents | src/pages/EventsPage.tsx:38-40 | empty without a user; TypeError iff a user is set and some organizer is null; otherwise exactly the events whose callback holds, each as often as in the input, as an order-preserving subsequence |
| EventsPage.FetchSettled | src/pages/EventsPage.tsx:16-25 | loading ends on success and on failure; the list is replaced on success and kept on failure |
| EventsPage.SelectTab | src/pages/EventsPage.tsx:47-69 | a tab click sets the tab only; "My Events" is clickable only when a user is cached |
| EventsPage.ManageTabShown | src/pages/EventsPage.tsx:59 | the "My Events" tab button exists iff a user is cached |
| EventsPage.View | src/pages/EventsPage.tsx:31-113 | loading screen while loading; once loaded with a non-throwing filter, Discover lists every fetched event unchanged and My Events lists `myEvents` with total equal to its length; a throwing filter breaks both tabs |
| EventsDetails.Related | src/pages/EventsDetails.tsx:34-36 | every similar event has the current location and another `_id`; an event is included iff it is in the list and meets both conditions, each as often as in the list; the result is an order-preserving subsequence |
| EventsDetails.IsOwner | src/pages/EventsDetails.tsx:65 | owner needs a user and a non-null organizer, then the same `_id`/`id` match |
| EventsDetails.Available | src/pages/EventsDetails.tsx:101-102 | "Available" iff fewer attendees than capacity |
| EventsDetails.OrganizerName | src/pages/EventsDetails.tsx:109 | the organizer's name if truthy, else "Unknown"; TypeError iff the organizer is null |
| EventsDetails.Gallery | src/pages/EventsDetails.tsx:83-95 | all of `images` when non-empty, else a truthy `image`, else the placeholder |
| EventsDetails.FetchStarted | src/pages/EventsDetails.tsx:22 | the fetch raises loading and keeps the rest |
| EventsDetails.FetchSettled | src/pages/EventsDetails.tsx:19-46 | loading ends either way; on success the event is stored with its similar events |
| EventsDetails.SimilarCardThrows | src/pages/EventsDetails.tsx:124-128 | a similar card throws iff a user is cached and some similar event has a null organizer |
| EventsDetails.View | src/pages/EventsDetails.tsx:59-135 | spinner while loading or without an event; a loaded event otherwise gives the page, with the delete button iff `IsOwner`, the organizer name of line 109, and badge, gallery and similar list from the state; TypeError iff the organizer is null or a similar event's card throws |
| EventsDetails.HandleDelete | src/pages/EventsDetails.tsx:48-57 | nothing without confirmation; else one DELETE of the route id, then home or the error alert |
| Ownership.OwnershipChecksAgree | src/components/EventCard.tsx:20 | with a non-null organizer the card, list filter and details ownership checks agree |
| Ownership.NullOrganizer | src/pages/EventsDetails.tsx:65-109 | with a null organizer and a user, card and filter throw while `isOwner` is false and the details page throws at the organizer name |
| Ownership.ManagedCardsShowBookings | src/pages/EventsPage.tsx:105-110 | every card in the "My Events" tab shows the bookings panel |
| Ownership.MyEventsAreCreatorCards | src/pages/EventsPage.tsx:38-40 | an event is in "My Events" iff the card's creator check holds for it |
| Ownership.SimilarCardsMatchCardAction | src/pages/EventsDetails.tsx:126-128 | the details page fails on a similar card exactly when that card's own action throws |
| Ownership.AvailableIsNotFull | src/pages/EventsDetails.tsx:101-102 | the details badge reads "Available" iff its card is not full |
| CreatePage.WithoutIndex | src/pages/CreatePage.tsx:57-59 | the index filter removes exactly position `i` and keeps the order of the rest; an out-of-range index changes nothing |
| CreatePage.CreateForm.constructor | src/pages/CreatePage.tsx:10-18 | empty form, no images, no user |
| CreatePage.CreateForm.Mount | src/pages/CreatePage.tsx:21-29 | with a cached user it is taken; without one, the alert and a redirect to `/login` |
| CreatePage.CreateForm.HandleChange | src/pages/CreatePage.tsx:31-33 | only the named field changes |
| CreatePage.CreateForm.HandleImageChange | src/pages/CreatePage.tsx:36-54 | a batch pushing the total past 10 is refused whole with the alert; otherwise every file is appended in order; the cap is kept |
| CreatePage.CreateForm.RemoveImage | src/pages/CreatePage.tsx:57-59 | removes exactly position `index`; keeps the cap |
| CreatePage.CreateForm.Submit | src/pages/CreatePage.tsx:61-71 | one POST of the form fields plus the current images, then success alert and home, or the error alert |
| Navbar.NavbarState.constructor | src/components/Navbar.tsx:16-27 | no user, empty term and results, every panel closed |
| Navbar.NavbarState.LoadUser | src/components/Navbar.tsx:32-35 | the user is the cached one or none |
| Types.Utf16Length | src/components/Navbar.tsx:39 | `.length` counts UTF-16 code units: between the character count and twice it, and equal to it iff every character is in the Basic Multilingual Plane |
| Navbar.AstralCharacterIsSearchable | src/components/Navbar.tsx:39 | a one-character term outside the Basic Multilingual Plane has length 2, so it is searched |
| Navbar.NavbarState.SetSearchTerm | src/components/Navbar.tsx:38-59 | a changed term shorter than 2 UTF-16 units empties the results and hides the panel; a changed longer term arms the search |
| Navbar.NavbarState.BeginSearch | src/components/Navbar.tsx:45-48 | searching starts and the request `/events?search=<term>&limit=5` is issued |
| Navbar.NavbarState.FinishSearch | src/components/Navbar.tsx:46-55 | searching ends either way; on success the results are stored and shown |
| Navbar.NavbarState.Focus | src/components/Navbar.tsx:241 | focusing shows the panel only for a term of at least 2 UTF-16 units |
| Navbar.NavbarState.DesktopPanel | src/components/Navbar.tsx:245-294 | hidden, else "Searching...", else the list if non-empty, else "No events found." |
| Navbar.NavbarState.MobilePanel | src/components/Navbar.tsx:142-176 | the mobile notes test the flags separately and the list is always the results |
| Navbar.NavbarState.MouseDown | src/components/Navbar.tsx:66-77 | outside the profile area (which exists only with a user) both profile menus close; outside the search box the results hide |
| Navbar.NavbarState.OpenMobileSearch | src/components/Navbar.tsx:98 | the overlay opens |
| Navbar.NavbarState.Back | src/components/Navbar.tsx:120-124 | the overlay closes, the term is cleared and the results hide (and empty when the term changed) |
| Navbar.NavbarState.ChooseDesktopResult | src/components/Navbar.tsx:258-261 | hides the panel and opens the event |
| Navbar.NavbarState.ChooseMobileResult | src/components/Navbar.tsx:157-159 | closes the overlay and opens the event |
| Navbar.NavbarState.ToggleProfileDropdown | src/components/Navbar.tsx:319 | flips the desktop dropdown |
| Navbar.NavbarState.ToggleProfileDropUp | src/components/Navbar.tsx:402 | flips the mobile drop-up |
| Navbar.NavbarState.DropdownLink | src/components/Navbar.tsx:337-361 | each dropdown link closes the dropdown and navigates |
| Navbar.NavbarState.DropUpPremium | src/components/Navbar.tsx:416-419 | the drop-up's Premium link clears the dropdown flag, not the drop-up's |
| Navbar.NavbarState.DropUpLogin | src/components/Navbar.tsx:438-440 | closes the drop-up and goes to `/login` |
| Navbar.NavbarState.Logout | src/components/Navbar.tsx:86-90 | storage is cleared, so the reloaded user is none and no token is present; broadcast, then `/login` |
| Navbar.NavbarState.DropUpSignOut | src/components/Navbar.tsx:428-432 | closes the drop-up, then logs out |
| AuthPage.AuthForm.constructor | src/pages/AuthPage.tsx:8-12 | login mode, empty form, not loading |
| AuthPage.AuthForm.Endpoint | src/pages/AuthPage.tsx:26 | `/auth/login` iff login mode, else `/auth/register` |
| AuthPage.AuthForm.Destination | src/pages/AuthPage.tsx:36-40 | `/` iff login mode, else `/profile-update` |
| AuthPage.AuthForm.View | src/pages/AuthPage.tsx:50-100 | name input iff register mode; both buttons disabled iff loading; heading and labels by mode and loading |
| AuthPage.AuthForm.HandleChange | src/pages/AuthPage.tsx:16-18 | only the named field changes |
| AuthPage.AuthForm.ClickToggle | src/pages/AuthPage.tsx:90-93 | flips the mode unless loading |
| AuthPage.AuthForm.Submit | src/pages/AuthPage.tsx:20-29 | loading becomes true and the whole form is posted to the endpoint; nothing while loading |
| AuthPage.AuthForm.Succeeded | src/pages/AuthPage.tsx:29-41 | token and user stored, the broadcast, then navigation by mode; loading stays on |
| AuthPage.AuthForm.Failed | src/pages/AuthPage.tsx:42-47 | the error alert and loading ends |
| ProfileUpdate.Merge | src/pages/ProfileUpdate.tsx:52 | right-biased merge: each property from the reply when it has it, else from the cached user |
| ProfileUpdate.MergeLaws | src/pages/ProfileUpdate.tsx:51-52 | merging into `{}` gives the reply, merging `{}` changes nothing, and merging twice is merging once |
| ProfileUpdate.UpdatedStore | src/pages/ProfileUpdate.tsx:51-52 | the new cached user is the merge into the old one, or into `{}` when none; other keys are untouched |
| ProfileUpdate.ProfileState.constructor | src/pages/ProfileUpdate.tsx:10-16 | empty form, no preview, empty image string |
| ProfileUpdate.ProfileState.Mount | src/pages/ProfileUpdate.tsx:18-24 | only `email` is copied from the cached user; age and mobile unchanged |
| ProfileUpdate.ProfileState.HandleImageChange | src/pages/ProfileUpdate.tsx:27-37 | a chosen picture sets preview and upload to the same value |
| ProfileUpdate.ProfileState.HandleChange | src/pages/ProfileUpdate.tsx:39-41 | only the named field changes |
| ProfileUpdate.ProfileState.Payload | src/pages/ProfileUpdate.tsx:47 | the form plus `profileImage`, the empty string when none was chosen |
| ProfileUpdate.ProfileState.Submit | src/pages/ProfileUpdate.tsx:43-59 | one PUT of the payload; on success the merged user is cached, alert and home; on failure storage is unchanged and the error alert |
| Sidebar.IsActive | src/components/Sidebar.tsx:8-11 | a link is highlighted iff the pathname equals its path exactly |
| Sidebar.NavPathsDistinct | src/components/Sidebar.tsx:26-34 | the seven link paths are pairwise distinct |
| Sidebar.AtMostOneActive | src/components/Sidebar.tsx:8-11 | for any pathname at most one link is highlighted |
| Sidebar.HomeNotActiveOnEventPage | src/components/Sidebar.tsx:8-11 | exact match only: `/` is not highlighted on `/event/<id>` |
| Sidebar.Links | src/components/Sidebar.tsx:26-51 | every link in order, highlighted iff the pathname equals its path |
| Sidebar.SidebarState.constructor | src/components/Sidebar.tsx:5 | starts expanded |
| Sidebar.SidebarState.Toggle | src/components/Sidebar.tsx:74 | flips `isExpanded` |
| Sidebar.SidebarState.ToggleTwice | src/components/Sidebar.tsx:74 | two toggles restore the state |
| Sidebar.SidebarState.View | src/components/Sidebar.tsx:42-86 | labels, the support section and the "Collapse" caption iff expanded |
| ProtectedRoute.Guard | src/components/ProtectedRoute.tsx:3-12 | renders the child iff the token is present and non-empty; otherwise replaces the location with `/login` |
| ProtectedRoute.AbsentTokenRedirects | src/components/ProtectedRoute.tsx:7-9 | no token: redirect to `/login` |
| ProtectedRoute.EmptyTokenRedirects | src/components/ProtectedRoute.tsx:7 | an empty token is falsy and redirects |
| ProtectedRoute.NonEmptyTokenRenders | src/components/ProtectedRoute.tsx:12 | a non-empty token renders the child |
| ProtectedRoute.GuardReadsOnlyToken | src/components/ProtectedRoute.tsx:4 | two stores with the same token entry get the same decision |
| ProtectedRoute.PublicScreen | src/App.tsx:26-28 | public iff the path is `/`, `/login` or `/signup`; the list for `/`, the auth page for the other two |
| ProtectedRoute.GuardedScreen | src/App.tsx:32-38 | a matched `/event/:id` path is the prefix followed by its id |
| ProtectedRoute.PublicAndGuardedDisjoint | src/App.tsx:26-38 | no path is both public and guarded |
| ProtectedRoute.Resolve | src/App.tsx:24-40 | public paths render whatever the token; guarded paths render iff the token is present, else redirect to `/login`; other paths match nothing |
| ProtectedRoute.GuardedPaths | src/App.tsx:26-38 | `/create-event`, `/event/:id`, `/profile-update`, `/settings`, `/premium` are guarded; `/`, `/login`, `/signup` are not |
| Storage.Present | src/components/ProtectedRoute.tsx:7 | `getItem(key)` is truthy iff the key is stored with a non-empty text or a record |
| Storage.StoredUser | src/components/EventCard.tsx:14-15 | the cached user iff a record is stored under `"user"` |
| Storage.StoredUserOrEmpty | src/pages/ProfileUpdate.tsx:51 | the cached user, or `{}` |
| Storage.ClearedHasNoSession | src/components/Navbar.tsx:87 | after clearing, no user and no token |

## Left out

- Requests to the remote service (`src/api.ts`) and its header interceptor
  are outside the model. A request is an effect value. Its reply is an input
  and may be any success or failure.
- JSON parsing of storage is out of scope. A stored `"user"` item that is text
  rather than a record is read as "no user". In the source, non-empty text
  would be parsed, or would throw.
- `FileReader` conversion is out of scope. A chosen file arrives as its data
  URL. A batch of uploads is appended in one atomic step, so the race between
  the asynchronous `onloadend` callbacks and the cap check is not modelled.
- The 300 ms search debounce, the cancellation of its timer and the DOM
  listener registration are timing plumbing and are left out. A search reply
  is accepted in any state, so the model allows a stale reply that arrives
  after the term has changed, as in the source, but does not describe timing.
- `Navbar.NavbarState.MouseDown` takes "inside the profile area" and "inside
  the search box" as inputs. DOM hit-testing is not modelled.
- JSX layout, CSS classes, icons, the attendee rows' avatars, search-result
  thumbnails, date formatting (`toLocaleDateString`, `toLocaleString`,
  locale-dependent), `alert`/`confirm` dialogs (`confirm` is an input
  `confirmed`) and the card's click-to-open navigation are left out.
- `EventCard.SeatsLeft` and `EventCard.IsFull` use integer capacity. Non-integer
  or NaN `capacity` values from the service are not modelled.
- `ProtectedRoute.Resolve` matches paths exactly and case-sensitively. React
  Router's case-insensitive matching, trailing-slash tolerance and
  URL-decoding are left out.
- `User` has exactly the properties of `src/types.ts`. Extra properties that
  the service may send, and that the profile merge would carry along, are not
  modelled.
- The page fetches (`GET /events` on the list page, `GET /events/<id>` and
  `GET /events` on the details page) are not emitted as request effects. Only
  their settled replies enter the model, through `FetchSettled`.
- ProfileUpdate.Merge: a reply property that is JSON `null` overrides the
  cached value in the source, but `Option` has no null, so the model treats it
  like an absent property and keeps the cached value.
- `src/pages/LoginPage.tsx` is entirely commented out. `src/App.tsx` is used
  only as the route table.
