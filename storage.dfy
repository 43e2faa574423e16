/** The browser's local storage as a map from key to stored item. The client
    keeps two keys: "token" and "user" (a serialized user record, held here
    already decoded). */
module Storage {
  import opened Types

  datatype Item = Text(text: string) | Record(user: User)

  type Store = map<string, Item>

  const TokenKey := "token"
  const UserKey := "user"

  /** Whether `localStorage.getItem(key)` is truthy: a present, non-empty
      string. A serialized record is never the empty string. */
  predicate Present(st: Store, key: string)
    ensures key !in st ==> !Present(st, key)
    ensures key in st && st[key] == Text("") ==> !Present(st, key)
    ensures key in st && st[key].Record? ==> Present(st, key)
    ensures key in st && st[key].Text? && st[key].text != "" ==> Present(st, key)
  {
    key in st && match st[key]
                 case Text(s) => s != ""
                 case Record(_) => true
  }

  /** `storedUser ? JSON.parse(storedUser) : null`. */
  function StoredUser(st: Store): (r: Option<User>)
    ensures r.Some? <==> UserKey in st && st[UserKey].Record?
    ensures r.Some? ==> r.value == st[UserKey].user
  {
    if UserKey in st && st[UserKey].Record? then Some(st[UserKey].user) else None
  }

  /** `JSON.parse(localStorage.getItem('user') || '{}')`. */
  function StoredUserOrEmpty(st: Store): (r: User)
    ensures StoredUser(st).Some? ==> r == StoredUser(st).value
    ensures StoredUser(st).None? ==> r == EmptyUser
  {
    match StoredUser(st)
    case Some(u) => u
    case None => EmptyUser
  }

  /** `localStorage.clear()`. */
  const Cleared: Store := map[]

  lemma ClearedHasNoSession()
    ensures StoredUser(Cleared).None? && !Present(Cleared, TokenKey)
  {
  }
}
