/** The records the client exchanges with the events service (src/types.ts),
    and two small wrappers used throughout the model. */
module Types {

  datatype Option<+T> = None | Some(value: T)

  /** The value of a rendering expression that may throw: reading a property
      of `null` in JavaScript raises a TypeError and the component fails to render. */
  datatype Outcome<+T> = Ok(value: T) | TypeError

  /** A JavaScript string is truthy iff it is non-empty; an absent property is falsy. */
  predicate Truthy(s: Option<string>) {
    s.Some? && s.value != ""
  }

  /** The expression `s || fallback` for an optional string. */
  function OrElse(s: Option<string>, fallback: string): (r: string)
    ensures Truthy(s) ==> r == s.value
    ensures !Truthy(s) ==> r == fallback
  {
    if Truthy(s) then s.value else fallback
  }

  /** JavaScript's `s.length`: the count of UTF-16 code units, where a
      character outside the Basic Multilingual Plane takes two. */
  function Utf16Length(s: string): (n: nat)
    ensures |s| <= n <= 2 * |s|
    ensures n == |s| <==> forall i :: 0 <= i < |s| ==> s[i] as int <= 0xFFFF
  {
    if s == [] then 0
    else
      var rest := Utf16Length(s[1..]);
      assert forall i :: 1 <= i < |s| ==> s[i] == s[1..][i - 1];
      (if s[0] as int > 0xFFFF then 2 else 1) + rest
  }

  /** A user as the service returns it and as the client caches it. Every
      property is optional: the cached copy is parsed JSON and may be `{}`. */
  datatype User = User(
    id: Option<string>,
    name: Option<string>,
    email: Option<string>,
    age: Option<int>,
    mobile: Option<string>,
    profileImage: Option<string>)

  /** The record `{}`. */
  const EmptyUser := User(None, None, None, None, None, None)

  /** The organizer reference of an event. The service may send the document
      key `_id` (here `docId`), the field `id`, or both. */
  datatype Organizer = Organizer(docId: Option<string>, id: Option<string>, name: Option<string>)

  /** An attendee entry: either a bare user id or a populated user document. */
  datatype Attendee =
    | AttendeeRef(ref: string)
    | AttendeeDoc(docId: Option<string>, name: Option<string>, email: Option<string>,
                  mobile: Option<string>, profileImage: Option<string>)

  /** An event. `docId` is the document key `_id`; `images` is untyped in the
      source and may be missing; `organizer` may be null. */
  datatype Event = Event(
    docId: string,
    title: string,
    description: string,
    date: string,
    location: string,
    capacity: int,
    image: Option<string>,
    images: Option<seq<string>>,
    organizer: Option<Organizer>,
    attendees: seq<Attendee>)

  /** A reply to a login or registration request. */
  datatype AuthResponse = AuthResponse(token: string, user: User)

  /** One entry of the navbar search results. */
  datatype SearchResult = SearchResult(docId: string, title: string, location: string,
                                       date: string, images: seq<string>)
}
