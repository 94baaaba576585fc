/** `Main` (the landing page): shows the navigation affordances that fit the
    stored session and wires the logout button. */
module Navigation {
  import opened Js
  import opened Browser
  import opened Auth

  const ROLE_CLIENT := "ROLE_CLIENT"
  const ROLE_ADMIN := "ROLE_ADMIN"

  /** The display of the six affordances: the login and register buttons,
      the user dropdown, the account and logout entries and the admin bar. */
  datatype NavView = NavView(
    login: Display, register: Display, dropdown: Display,
    account: Display, logout: Display, adminBar: Display)

  predicate Shown(d: Display) {
    d != Hidden
  }

  /** The token test of `checkAuth`: `getItem` yields `null` or a string,
      and only a non-empty string is truthy. */
  predicate HasToken(token: Option<string>) {
    token.Some? && token.value != ""
  }

  /** A token together with one of the two roles the page knows. */
  predicate SignedIn(token: Option<string>, role: Option<string>) {
    HasToken(token) && (role == Some(ROLE_CLIENT) || role == Some(ROLE_ADMIN))
  }

  /** The decision table of `checkAuth`. A token with a role the page does
      not know, or a role without a token, counts as signed out. */
  function Visibility(token: Option<string>, role: Option<string>): (v: NavView)
    ensures HasToken(token) && role == Some(ROLE_CLIENT) ==>
              v == NavView(Hidden, Hidden, InlineFlex, Block, Block, Hidden)
    ensures HasToken(token) && role == Some(ROLE_ADMIN) ==>
              v == NavView(Hidden, Hidden, InlineFlex, Block, Block, Block)
    ensures !SignedIn(token, role) ==>
              v == NavView(Block, Block, Hidden, Hidden, Hidden, Hidden)
    // the entry points for guests and for signed-in users never show together
    ensures Shown(v.login) <==> !SignedIn(token, role)
    ensures Shown(v.register) <==> !SignedIn(token, role)
    ensures Shown(v.dropdown) <==> SignedIn(token, role)
    ensures Shown(v.account) <==> SignedIn(token, role)
    ensures Shown(v.logout) <==> SignedIn(token, role)
    ensures Shown(v.adminBar) <==> HasToken(token) && role == Some(ROLE_ADMIN)
  {
    if SignedIn(token, role) then
      NavView(Hidden, Hidden, InlineFlex, Block, Block,
              if role == Some(ROLE_ADMIN) then Block else Hidden)
    else
      NavView(Block, Block, Hidden, Hidden, Hidden, Hidden)
  }

  class Main {
    const auth: AuthService
    /** `#token` and `#role`, read from storage once, when the page is built. */
    const token: Option<string>
    const role: Option<string>
    var loginBtn: Display
    var registerBtn: Display
    var userDropdownBtn: Display
    var accountBtn: Display
    var logoutBtn: Display
    var adminBar: Display

    function View(): NavView
      reads this
    {
      NavView(loginBtn, registerBtn, userDropdownBtn, accountBtn, logoutBtn, adminBar)
    }

    /** Builds the page over elements whose markup gives `page`, then runs
        `init`: `checkAuth` and `setupLogout` (the listener it registers is
        `ClickLogout`). */
    constructor(auth: AuthService, page: NavView)
      ensures this.auth == auth
      ensures token == auth.store.GetItem("token") && role == auth.store.GetItem("role")
      ensures View() == Visibility(token, role)
    {
      this.auth := auth;
      token := auth.store.GetItem("token");
      role := auth.store.GetItem("role");
      loginBtn, registerBtn, userDropdownBtn := page.login, page.register, page.dropdown;
      accountBtn, logoutBtn, adminBar := page.account, page.logout, page.adminBar;
      new;
      CheckAuth();
    }

    /** `checkAuth()`: hides all six affordances, then shows those the table
        gives. Since token and role were read once, every call leaves the
        same view. */
    method CheckAuth()
      modifies this
      ensures View() == Visibility(token, role)
    {
      loginBtn := Hidden;
      registerBtn := Hidden;
      userDropdownBtn := Hidden;
      accountBtn := Hidden;
      logoutBtn := Hidden;
      adminBar := Hidden;

      if HasToken(token) && role == Some(ROLE_CLIENT) {
        userDropdownBtn := InlineFlex;
        accountBtn := Block;
        logoutBtn := Block;
        adminBar := Hidden;
      } else if HasToken(token) && role == Some(ROLE_ADMIN) {
        userDropdownBtn := InlineFlex;
        accountBtn := Block;
        logoutBtn := Block;
        adminBar := Block;
      } else {
        loginBtn := Block;
        registerBtn := Block;
      }
    }

    /** The logout button's click listener: `authService.logout()`, then a
        reload (not modelled). */
    method ClickLogout()
      requires auth.Valid()
      modifies auth, auth.store
      ensures auth.Valid()
      ensures auth.store.items == ClearedSession(old(auth.store.items))
      ensures auth.logoutTimer == None && auth.timeouts == map[]
    {
      auth.Logout();
    }
  }
}
