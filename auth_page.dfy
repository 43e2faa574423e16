/** The login/register page (src/pages/AuthPage.tsx): one form in two modes,
    a loading flag that disables both buttons, and the session write on success. */
module AuthPage {
  import opened Types
  import opened Effects
  import opened Storage

  datatype CredentialField = Name | Email | Password

  function FieldOf(c: Credentials, field: CredentialField): string {
    match field
    case Name => c.name
    case Email => c.email
    case Password => c.password
  }

  datatype AuthView = AuthView(heading: string, nameField: bool, submitDisabled: bool,
                               submitLabel: string, toggleDisabled: bool, toggleLabel: string)

  class AuthForm {
    var isLogin: bool
    var form: Credentials
    var loading: bool

    constructor ()
      ensures isLogin && form == Credentials("", "", "") && !loading
    {
      isLogin := true;
      form := Credentials("", "", "");
      loading := false;
    }

    /** The request target: login in login mode, register otherwise. */
    function Endpoint(): (path: string)
      reads this
      ensures path == "/auth/login" <==> isLogin
      ensures !isLogin ==> path == "/auth/register"
    {
      if isLogin then "/auth/login" else "/auth/register"
    }

    /** Where a successful submit leads: home after login, the profile form after registering. */
    function Destination(): (path: string)
      reads this
      ensures path == "/" <==> isLogin
      ensures !isLogin ==> path == "/profile-update"
      ensures path == "/" <==> Endpoint() == "/auth/login"
    {
      if !isLogin then "/profile-update" else "/"
    }

    /** What the page renders from its state: the heading, whether the name
        input exists, both buttons' disabled flags and labels. */
    function View(): (v: AuthView)
      reads this
      ensures v.nameField <==> !isLogin
      ensures v.submitDisabled <==> loading
      ensures v.toggleDisabled <==> loading
      ensures v.heading == (if isLogin then "Welcome Back" else "Create Account")
      ensures loading ==> v.submitLabel == "Processing..."
      ensures !loading ==> v.submitLabel == (if isLogin then "Login" else "Register")
      ensures v.toggleLabel == (if isLogin then "Register" else "Login")
    {
      AuthView(
        if isLogin then "Welcome Back" else "Create Account",
        !isLogin,
        loading,
        if loading then "Processing..." else if isLogin then "Login" else "Register",
        loading,
        if isLogin then "Register" else "Login")
    }

    /** `handleChange`: only the named field is overwritten. */
    method HandleChange(field: CredentialField, value: string)
      modifies this`form
      ensures FieldOf(form, field) == value
      ensures forall other :: other != field ==> FieldOf(form, other) == FieldOf(old(form), other)
    {
      match field
      case Name => form := form.(name := value);
      case Email => form := form.(email := value);
      case Password => form := form.(password := value);
    }

    /** A click on the mode toggle: it flips the mode, unless the button is disabled. */
    method ClickToggle()
      modifies this`isLogin
      ensures !loading ==> isLogin == !old(isLogin)
      ensures loading ==> isLogin == old(isLogin)
    {
      if !loading {
        isLogin := !isLogin;
      }
    }

    /** A submit: loading starts and the whole form is posted to the mode's
        endpoint. The disabled button makes a submit while loading do nothing. */
    method Submit() returns (fx: Option<Effect>)
      modifies this`loading
      ensures old(loading) ==> fx.None? && loading
      ensures !old(loading) ==> loading && fx == Some(Request(Post, Endpoint(), SignIn(form)))
    {
      if loading {
        return None;
      }
      loading := true;
      fx := Some(Request(Post, Endpoint(), SignIn(form)));
    }

    /** The request succeeded: store the token and the user, broadcast
        `auth-change`, and navigate. Loading is deliberately left on. */
    method Succeeded(st: Store, data: AuthResponse) returns (st': Store, fx: seq<Effect>)
      ensures st' == st[TokenKey := Text(data.token)][UserKey := Record(data.user)]
      ensures StoredUser(st') == Some(data.user)
      ensures (Present(st', TokenKey) <==> data.token != "")
      ensures fx == [AuthChange, Navigate(Destination(), false)]
    {
      st' := st[TokenKey := Text(data.token)][UserKey := Record(data.user)];
      fx := [AuthChange, Navigate(Destination(), false)];
    }

    /** The request failed: alert, and end loading so the form can be retried. */
    method Failed(reply: Reply<AuthResponse>) returns (fx: Effect)
      requires reply.Failure?
      modifies this`loading
      ensures !loading
      ensures fx == Alert(FailureText(reply, "Authentication Failed"))
    {
      loading := false;
      fx := Alert(FailureText(reply, "Authentication Failed"));
    }
  }
}
