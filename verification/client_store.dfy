/**
 * The browser-side user store: the signed-in user, the `loading` flag
 * (true once the first current-user request has settled) and the session
 * token kept in local storage under the key "token". API calls are given as
 * their settled results; navigation is the decision the route guard returns.
 */
module ClientStore {
  import opened Wrappers
  import Views

  /** The user the store keeps. */
  datatype ClientUser = ClientUser(token: string, pid: string, name: string, email: string)

  /** What the route guard asks the router to do. */
  datatype Navigation = Stay | Push(path: string)

  const TOKEN_KEY := "token"
  const DASHBOARD := "/dashboard"

  predicate StartsWith(s: string, prefix: string) {
    |prefix| <= |s| && s[..|prefix|] == prefix
  }

  /**
   * The route guard in the store's `watch`: nothing until the user has been
   * loaded; then a signed-out visitor is sent away from the dashboard and a
   * signed-in user is sent to it.
   */
  function Redirect(user: Option<ClientUser>, loading: bool, path: string): (n: Navigation)
    ensures !loading ==> n == Stay
    ensures loading && user.None? && StartsWith(path, DASHBOARD) ==> n == Push("/")
    ensures loading && user.Some? && !StartsWith(path, DASHBOARD) ==> n == Push(DASHBOARD)
    ensures n == Stay <==> !loading || (user.Some? <==> StartsWith(path, DASHBOARD))
  {
    if !loading then Stay
    else if user.None? && StartsWith(path, DASHBOARD) then Push("/")
    else if user.Some? && !StartsWith(path, DASHBOARD) then Push(DASHBOARD)
    else Stay
  }

  /** Following the guard's push never triggers a second push: the guard has no redirect loop. */
  lemma RedirectSettles(user: Option<ClientUser>, path: string)
    requires Redirect(user, true, path).Push?
    ensures Redirect(user, true, Redirect(user, true, path).path) == Stay
  {
    var target := Redirect(user, true, path).path;
    if user.Some? {
      assert target == DASHBOARD;
      assert target[..|DASHBOARD|] == DASHBOARD;
    } else {
      assert target == "/";
    }
  }

  /** The value `setUser` stores under "token": the user's token, or "" without a user. */
  function StoredToken(user: Option<ClientUser>): (t: string)
    ensures user.None? ==> t == ""
    ensures user.Some? ==> t == user.value.token
  {
    match user
    case None => ""
    case Some(u) => if u.token != "" then u.token else ""
  }

  /** The part of a LoginResponse the store keeps as its user. */
  function FromLogin(r: Views.LoginResponse): (u: ClientUser)
    ensures u.token == r.token && u.pid == r.pid && u.name == r.name && u.email == r.email
  {
    ClientUser(r.token, r.pid, r.name, r.email)
  }

  /** The part of a CurrentResponse the store keeps as its user. */
  function FromCurrent(r: Views.CurrentResponse): (u: ClientUser)
    ensures u.token == r.token && u.pid == r.pid && u.name == r.name && u.email == r.email
  {
    ClientUser(r.token, r.pid, r.name, r.email)
  }

  /** `useUserStore`. */
  class UserStore {
    var user: Option<ClientUser>
    var loading: bool
    var storage: map<string, string>

    constructor(storage: map<string, string>)
      ensures user == None && !loading && this.storage == storage
    {
      user := None;
      loading := false;
      this.storage := storage;
    }

    /** `setUser`: replaces the user and stores its token (or ""). */
    method SetUser(newUser: Option<ClientUser>)
      modifies this
      ensures user == newUser && loading == old(loading)
      ensures storage == old(storage)[TOKEN_KEY := StoredToken(newUser)]
    {
      user := newUser;
      storage := storage[TOKEN_KEY := StoredToken(newUser)];
    }

    /**
     * `fetchCurrentUser`: on success the user is taken from the response
     * without touching the stored token; on failure the user is cleared
     * through `setUser`. Either way the store is marked loaded.
     */
    method FetchCurrentUser(response: Result<Views.CurrentResponse, string>)
      modifies this
      ensures loading
      ensures response.Ok? ==> user == Some(FromCurrent(response.value)) && storage == old(storage)
      ensures response.Err? ==> user == None && storage == old(storage)[TOKEN_KEY := ""]
    {
      match response {
        case Ok(r) =>
          user := Some(FromCurrent(r));
        case Err(_) =>
          SetUser(None);
      }
      loading := true;
    }

    /** `handleLogin` and `handleRegister`: a LoginResponse becomes the user; a failure changes nothing. */
    method HandleLogin(response: Result<Views.LoginResponse, string>)
      modifies this
      ensures loading == old(loading)
      ensures response.Ok? ==>
        user == Some(FromLogin(response.value)) && storage == old(storage)[TOKEN_KEY := response.value.token]
      ensures response.Err? ==> user == old(user) && storage == old(storage)
    {
      if response.Ok? {
        SetUser(Some(FromLogin(response.value)));
      }
    }

    /**
     * `verifyMagicLink`: a LoginResponse becomes the user; on failure the
     * router is sent to "/" and the user is left as it was.
     */
    method VerifyMagicLink(response: Result<Views.LoginResponse, string>) returns (n: Navigation)
      modifies this
      ensures loading == old(loading)
      ensures response.Ok? ==>
        n == Stay && user == Some(FromLogin(response.value)) && storage == old(storage)[TOKEN_KEY := response.value.token]
      ensures response.Err? ==> n == Push("/") && user == old(user) && storage == old(storage)
    {
      if response.Ok? {
        SetUser(Some(FromLogin(response.value)));
        n := Stay;
      } else {
        n := Push("/");
      }
    }

    /** `handleLogout`: the user and the stored token are cleared whether or not the API call succeeded. */
    method HandleLogout(apiSucceeded: bool)
      modifies this
      ensures user == None && loading == old(loading)
      ensures storage == old(storage)[TOKEN_KEY := ""]
    {
      SetUser(None);
    }
  }

  /**
   * Logging out on a dashboard page, once loaded, sends the visitor to "/",
   * and the stored token is empty afterwards.
   */
  method LogoutLeavesDashboard(current: Views.CurrentResponse, path: string, apiSucceeded: bool)
    returns (n: Navigation, token: string)
    requires StartsWith(path, DASHBOARD)
    ensures n == Push("/") && token == ""
  {
    var store := new UserStore(map[]);
    store.FetchCurrentUser(Ok(current));
    store.HandleLogout(apiSucceeded);
    n := Redirect(store.user, store.loading, path);
    token := store.storage[TOKEN_KEY];
  }
}
