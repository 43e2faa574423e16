/** The route guard (src/components/ProtectedRoute.tsx) and the route table it
    guards (src/App.tsx). */
module ProtectedRoute {
  import opened Types
  import opened Storage

  datatype Decision = RenderChild | RedirectTo(path: string, replace: bool)

  /** `if (!token) <Navigate to="/login" replace />` else `<Outlet />`. */
  function Guard(st: Store): (d: Decision)
    ensures d == RenderChild <==> Present(st, TokenKey)
    ensures d != RenderChild ==> d == RedirectTo("/login", true)
  {
    if Present(st, TokenKey) then RenderChild else RedirectTo("/login", true)
  }

  lemma AbsentTokenRedirects(st: Store)
    requires TokenKey !in st
    ensures Guard(st) == RedirectTo("/login", true)
  {
  }

  /** The empty string is falsy, so an empty token redirects too. */
  lemma EmptyTokenRedirects(st: Store)
    requires TokenKey in st && st[TokenKey] == Text("")
    ensures Guard(st) == RedirectTo("/login", true)
  {
  }

  lemma NonEmptyTokenRenders(st: Store, token: string)
    requires token != ""
    ensures Guard(st[TokenKey := Text(token)]) == RenderChild
  {
  }

  /** The decision reads nothing but the token entry. */
  lemma GuardReadsOnlyToken(a: Store, b: Store)
    requires TokenKey in a <==> TokenKey in b
    requires TokenKey in a ==> a[TokenKey] == b[TokenKey]
    ensures Guard(a) == Guard(b)
  {
  }

  /** The screens of the route table. */
  datatype Screen = EventsList | Auth | CreateEvent | EventDetails(id: string) | ProfileForm | Settings | Premium

  datatype Resolution = Show(screen: Screen) | Redirect(path: string) | NoMatch

  /** A `:id` path segment: non-empty and without a slash. */
  predicate IsSegment(s: string) {
    s != [] && forall i :: 0 <= i < |s| ==> s[i] != '/'
  }

  const EventPrefix := "/event/"

  /** The guarded group of the route table, or None for a path outside it. */
  function GuardedScreen(path: string): (r: Option<Screen>)
    ensures r.Some? && r.value.EventDetails? ==> path == EventPrefix + r.value.id
  {
    if path == "/create-event" then Some(CreateEvent)
    else if |path| > |EventPrefix| && path[..|EventPrefix|] == EventPrefix && IsSegment(path[|EventPrefix|..]) then
      assert path == EventPrefix + path[|EventPrefix|..];
      Some(EventDetails(path[|EventPrefix|..]))
    else if path == "/profile-update" then Some(ProfileForm)
    else if path == "/settings" then Some(Settings)
    else if path == "/premium" then Some(Premium)
    else None
  }

  /** The public routes: the list and the two auth paths. */
  function PublicScreen(path: string): (r: Option<Screen>)
    ensures r.Some? <==> path == "/" || path == "/login" || path == "/signup"
    ensures r == Some(EventsList) <==> path == "/"
    ensures r.Some? && path != "/" ==> r == Some(Auth)
  {
    if path == "/" then Some(EventsList)
    else if path == "/login" || path == "/signup" then Some(Auth)
    else None
  }

  /** No path is both public and guarded. */
  lemma PublicAndGuardedDisjoint(path: string)
    ensures PublicScreen(path).None? || GuardedScreen(path).None?
  {
  }

  /** Resolving a location: public routes always render, guarded ones go through the guard. */
  function Resolve(path: string, st: Store): (r: Resolution)
    ensures PublicScreen(path).Some? ==> r == Show(PublicScreen(path).value)
    ensures GuardedScreen(path).Some? ==>
              (r == Show(GuardedScreen(path).value) <==> Present(st, TokenKey)) &&
              (!Present(st, TokenKey) ==> r == Redirect("/login"))
    ensures PublicScreen(path).None? && GuardedScreen(path).None? ==> r == NoMatch
  {
    PublicAndGuardedDisjoint(path);
    match PublicScreen(path)
    case Some(s) => Show(s)
    case None =>
      match GuardedScreen(path)
      case None => NoMatch
      case Some(s) =>
        match Guard(st)
        case RenderChild => Show(s)
        case RedirectTo(to, _) => Redirect(to)
  }

  /** The guarded paths are exactly the five private routes. */
  lemma GuardedPaths(id: string)
    requires IsSegment(id)
    ensures GuardedScreen("/create-event").Some? && GuardedScreen("/profile-update").Some?
    ensures GuardedScreen("/settings").Some? && GuardedScreen("/premium").Some?
    ensures GuardedScreen(EventPrefix + id) == Some(EventDetails(id))
    ensures GuardedScreen("/").None? && GuardedScreen("/login").None? && GuardedScreen("/signup").None?
  {
    var p := EventPrefix + id;
    assert p[..|EventPrefix|] == EventPrefix;
    assert p[|EventPrefix|..] == id;
    assert p != "/create-event" by { assert p[1] == 'e'; assert "/create-event"[1] == 'c'; }
  }
}
