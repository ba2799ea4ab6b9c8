/** src/pages/AuthPage.tsx: the sign-in / sign-up form and its submission. */
module AuthPage {
  import opened Wrappers
  import opened Text
  import opened Session
  import Routing

  /** `name || email.split("@")[0]`: the name given, or else the part of the email before its first '@'. */
  function DisplayName(name: string, email: string): (d: string)
    ensures name != "" ==> d == name
    ensures name == "" ==> d <= email && '@' !in d && (|d| == |email| || email[|d|] == '@')
  {
    if name != "" then name else BeforeFirst(email, '@')
  }

  /** With no name and no '@', the whole email is the name; the prefix before an '@' never reaches the domain. */
  lemma DisplayNameFromEmail(email: string, local: string, domain: string)
    ensures '@' !in email ==> DisplayName("", email) == email
    ensures '@' !in local ==> DisplayName("", local + "@" + domain) == local
  {
    if '@' !in local {
      var e := local + "@" + domain;
      var d := DisplayName("", e);
      assert e[..|local|] == local && e[|local|] == '@';
    }
  }

  /** The submit button is disabled while no role is picked. */
  predicate SubmitDisabled(selectedRole: Option<Role>) {
    selectedRole == None
  }

  function SubmitText(isLogin: bool): (t: string)
    ensures isLogin <==> t == "Sign In"
    ensures !isLogin <==> t == "Create Account"
  {
    if isLogin then "Sign In" else "Create Account"
  }

  /** What a submit does: nothing, or a login followed by navigation. */
  datatype Submission = Ignored | LoggedIn(role: Role, name: string, navigateTo: string)

  function SubmitOutcome(selectedRole: Option<Role>, name: string, email: string): (s: Submission)
    ensures s == Ignored <==> SubmitDisabled(selectedRole)
    ensures s.LoggedIn? ==> Some(s.role) == selectedRole && s.name == DisplayName(name, email) && s.navigateTo == "/dashboard"
  {
    if selectedRole.None? then Ignored else LoggedIn(selectedRole.value, DisplayName(name, email), "/dashboard")
  }

  /** The page a role lands on. */
  function HomePage(r: Role): Routing.Page {
    match r
    case Admin => Routing.AdminDashboard
    case Driver => Routing.DriverDashboard
    case Supplier => Routing.SupplierPortal
  }

  /** After a submit that logs in, the navigation lands on the signed-in role's own dashboard. */
  lemma SubmitLandsOnRoleDashboard(selectedRole: Option<Role>, name: string, email: string)
    requires !SubmitDisabled(selectedRole)
    ensures var s := SubmitOutcome(selectedRole, name, email);
      Routing.Resolve(s.navigateTo, AuthState(true, Some(RoleName(s.role)), s.name)) == Routing.Render(HomePage(s.role))
  {
    var s := SubmitOutcome(selectedRole, name, email);
    Routing.SharedPathsDispatchByRole("/dashboard", AuthState(true, Some(RoleName(s.role)), s.name));
  }

  /** The form's state; the password and its visibility are not modelled. */
  class AuthForm {
    var isLogin: bool
    var selectedRole: Option<Role>
    var name: string
    var email: string

    constructor ()
      ensures isLogin && selectedRole == None && name == "" && email == ""
    {
      isLogin := true;
      selectedRole := None;
      name := "";
      email := "";
    }

    /** A role card. */
    method SelectRole(r: Role)
      modifies this
      ensures selectedRole == Some(r)
      ensures isLogin == old(isLogin) && name == old(name) && email == old(email)
    {
      selectedRole := Some(r);
    }

    /** The Full Name field, shown only when signing up. */
    method SetName(n: string)
      modifies this
      ensures name == n
      ensures isLogin == old(isLogin) && selectedRole == old(selectedRole) && email == old(email)
    {
      name := n;
    }

    method SetEmail(e: string)
      modifies this
      ensures email == e
      ensures isLogin == old(isLogin) && selectedRole == old(selectedRole) && name == old(name)
    {
      email := e;
    }

    /** The Sign Up / Sign In link; a name typed while signing up is kept when switching back. */
    method ToggleMode()
      modifies this
      ensures isLogin == !old(isLogin)
      ensures selectedRole == old(selectedRole) && name == old(name) && email == old(email)
    {
      isLogin := !isLogin;
    }

    /** `handleSubmit`: without a role nothing happens; with one, `login` runs and the page moves to /dashboard. */
    method HandleSubmit(auth: AuthProvider) returns (navigatedTo: Option<string>)
      modifies auth, auth.storage
      ensures selectedRole == None ==>
        navigatedTo == None && auth.State() == old(auth.State()) && auth.storage.entries == old(auth.storage.entries)
      ensures selectedRole.Some? ==>
        navigatedTo == Some("/dashboard") &&
        auth.State() == AuthState(true, Some(RoleName(selectedRole.value)), DisplayName(name, email)) &&
        auth.storage.entries == StoreAfterLogin(old(auth.storage.entries), selectedRole.value, DisplayName(name, email))
    {
      if selectedRole.None? {
        return None;
      }
      auth.Login(selectedRole.value, if name != "" then name else BeforeFirst(email, '@'));
      navigatedTo := Some("/dashboard");
    }
  }

  /** Switching mode twice returns to the original mode and keeps every field. */
  method ToggleTwice(f: AuthForm)
    modifies f
    ensures f.isLogin == old(f.isLogin)
    ensures f.selectedRole == old(f.selectedRole) && f.name == old(f.name) && f.email == old(f.email)
  {
    f.ToggleMode();
    f.ToggleMode();
  }

  /** Signing in from a fresh page: the session is stored, and /dashboard renders the role's dashboard. */
  method SignIn(storage: LocalStorage, r: Role, email: string) returns (shown: Routing.Outcome)
    modifies storage
    ensures shown == Routing.Render(HomePage(r))
    ensures storage.entries == StoreAfterLogin(old(storage.entries), r, DisplayName("", email))
  {
    var auth := new AuthProvider(storage);
    var form := new AuthForm();
    form.SetEmail(email);
    form.SelectRole(r);
    var nav := form.HandleSubmit(auth);
    SubmitLandsOnRoleDashboard(Some(r), "", email);
    shown := Routing.Resolve(nav.value, auth.State());
  }
}
