/** Everything a component does to the outside world, as values: alerts,
    navigation, requests to the events service, the `auth-change` broadcast
    and the parent's refresh callback. */
module Effects {
  import opened Types

  datatype Method = Get | Post | Put | Delete

  /** The create-event form (src/pages/CreatePage.tsx:13-15); every input is text. */
  datatype EventForm = EventForm(title: string, description: string, date: string,
                                 location: string, capacity: string)

  /** The login/register form (src/pages/AuthPage.tsx:9). */
  datatype Credentials = Credentials(name: string, email: string, password: string)

  /** The profile form (src/pages/ProfileUpdate.tsx:10-14). `email` is copied
      from the cached user and may therefore be absent. */
  datatype ProfileForm = ProfileForm(age: string, mobile: string, email: Option<string>)

  /** The JSON body of a request. */
  datatype Body =
    | NoBody
    | NewEvent(form: EventForm, images: seq<string>)
    | SignIn(credentials: Credentials)
    | ProfileChange(profile: ProfileForm, profileImage: string)

  datatype Effect =
    | Alert(message: string)
    | Navigate(path: string, replace: bool)
    | Request(verb: Method, path: string, body: Body)
    | AuthChange
    | Refresh

  /** How a request settled: the response data, or the failure with the
      optional `err.response.data.message`. */
  datatype Reply<+T> = Success(data: T) | Failure(message: Option<string>)

  /** The alert text `err.response?.data?.message || fallback`. */
  function FailureText<T>(reply: Reply<T>, fallback: string): (r: string)
    requires reply.Failure?
    ensures Truthy(reply.message) ==> r == reply.message.value
    ensures !Truthy(reply.message) ==> r == fallback
  {
    OrElse(reply.message, fallback)
  }

  /** How many requests a sequence of effects issues. */
  function Requests(fx: seq<Effect>): (n: nat)
    ensures n <= |fx|
    ensures n == 0 <==> forall i :: 0 <= i < |fx| ==> !fx[i].Request?
  {
    if fx == [] then 0
    else (if fx[0].Request? then 1 else 0) + Requests(fx[1..])
  }

  lemma {:induction false} RequestsAppend(a: seq<Effect>, b: seq<Effect>)
    ensures Requests(a + b) == Requests(a) + Requests(b)
  {
    if a == [] {
      assert a + b == b;
    } else {
      assert (a + b)[1..] == a[1..] + b;
      RequestsAppend(a[1..], b);
    }
  }
}
