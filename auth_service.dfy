/** `AuthService`: logs in and registers against the authentication API,
    keeps the session (`token` and `role`) in `localStorage`, and owns the
    single session-expiry timeout. */
module Auth {
  import opened Js
  import opened Browser

  const BASE_URL := "http://localhost:8080/auth"
  const REGISTER_URL := BASE_URL + "/register"
  const LOGIN_URL := BASE_URL + "/login"

  /** The session lifetime: four hours in milliseconds. */
  const FOUR_HOURS_MS: int := 4 * 60 * 60 * 1000

  /** The envelope `login` and `register` resolve to:
      `{ response: { ok }, responseData }`. */
  datatype AuthResult = AuthResult(ok: bool, responseData: Json)

  /** What the `catch` of `login` or `register` receives: an axios error
      carrying the server's response, or anything else that was thrown. */
  datatype Caught = WithResponse(data: Json) | WithoutResponse(thrown: Thrown)

  /** `#handleError`: an error that carries a response becomes a failed
      envelope holding the response body; any other error is rethrown as it
      is. */
  function HandleError(error: Caught): (r: Call<AuthResult>)
    ensures r.Returned? <==> error.WithResponse?
    ensures error.WithResponse? ==> r.value == AuthResult(false, error.data)
    ensures error.WithoutResponse? ==> r.thrown == error.thrown
  {
    match error
    case WithResponse(data) => Returned(AuthResult(false, data))
    case WithoutResponse(thrown) => Threw(thrown)
  }

  /** A JSON POST as `login` and `register` send it. */
  function JsonPost(url: string, payload: map<string, Json>): HttpRequest {
    HttpRequest(Post, url, map["Content-Type" := "application/json"], Some(Obj(payload)))
  }

  /** The request `login(email, password)` sends. */
  function LoginRequest(email: string, password: string): HttpRequest {
    JsonPost(LOGIN_URL, map["email" := Str(email), "password" := Str(password)])
  }

  /** The request `register(name, email, password)` sends. */
  function RegisterRequest(name: string, email: string, password: string): HttpRequest {
    JsonPost(REGISTER_URL, map["name" := Str(name), "email" := Str(email), "password" := Str(password)])
  }

  /** What `login` resolves to or throws once its POST has ended with `o`.
      Only a 2xx response whose body is an object (or at least not `null`)
      yields `ok`; reading `token` off a `null` body throws a TypeError,
      which carries no response and is rethrown. */
  function LoginResult(o: Outcome): (r: Call<AuthResult>)
    ensures (r.Returned? && r.value.ok) <==> (o.Success? && !IsNullish(o.data))
    ensures r.Returned? ==> !o.NoResponse? && r.value.responseData == o.data
    ensures o.HttpError? ==> r == Returned(AuthResult(false, o.data))
    ensures o.NoResponse? ==> r == Threw(NetworkFailure)
    ensures o.Success? && IsNullish(o.data) ==> r == Threw(TypeError)
  {
    match o
    case Success(data, _) =>
      if IsNullish(data) then HandleError(WithoutResponse(TypeError))
      else Returned(AuthResult(true, data))
    case HttpError(data, _) => HandleError(WithResponse(data))
    case NoResponse => HandleError(WithoutResponse(NetworkFailure))
  }

  /** What `register` resolves to or throws once its POST has ended with
      `o`: the same classification as `login`, with nothing read off a
      successful body. */
  function RegisterResult(o: Outcome): (r: Call<AuthResult>)
    ensures (r.Returned? && r.value.ok) <==> o.Success?
    ensures r.Returned? ==> !o.NoResponse? && r.value.responseData == o.data
    ensures r.Threw? <==> o.NoResponse?
    ensures r.Threw? ==> r.thrown == NetworkFailure
  {
    match o
    case Success(data, _) => Returned(AuthResult(true, data))
    case HttpError(data, _) => HandleError(WithResponse(data))
    case NoResponse => HandleError(WithoutResponse(NetworkFailure))
  }

  /** Storage after `saveToken(data)` on a non-nullish body: both keys are
      written, from the body's `token` and `role` as `setItem` stringifies
      them, and nothing else changes. */
  function SavedSession(items: map<string, string>, data: Json): (s: map<string, string>)
    ensures s.Keys == items.Keys + {"token", "role"}
    ensures s["token"] == JsString(Prop(data, "token"))
    ensures s["role"] == JsString(Prop(data, "role"))
    ensures forall k :: k in items && k != "token" && k != "role" ==> s[k] == items[k]
  {
    items["token" := JsString(Prop(data, "token"))]["role" := JsString(Prop(data, "role"))]
  }

  /** Storage after `logout`: both keys are gone and nothing else changes. */
  function ClearedSession(items: map<string, string>): (s: map<string, string>)
    ensures s.Keys == items.Keys - {"token", "role"}
    ensures forall k :: k in s ==> s[k] == items[k]
  {
    items - {"token", "role"}
  }

  class AuthService {
    const store: LocalStorage
    const net: Network
    /** `#logoutTimer`: the id of the last timeout this service scheduled
        and has not cleared, if any. */
    var logoutTimer: Option<nat>
    /** The browser's pending timeouts that call this service's `logout`:
        id to deadline in milliseconds. */
    var timeouts: map<nat, int>
    /** The id the browser's `setTimeout` hands out next (ids are positive). */
    var nextTimerId: nat

    /** At most one expiry timeout is ever pending, and a pending one is the
        one `#logoutTimer` names. */
    ghost predicate Valid()
      reads this
    {
      && nextTimerId >= 1
      && (logoutTimer.Some? ==> 1 <= logoutTimer.value < nextTimerId)
      && timeouts.Keys <= (if logoutTimer.Some? then {logoutTimer.value} else {})
    }

    constructor(store: LocalStorage, net: Network)
      ensures this.store == store && this.net == net
      ensures Valid() && logoutTimer == None && timeouts == map[]
    {
      this.store := store;
      this.net := net;
      logoutTimer := None;
      timeouts := map[];
      nextTimerId := 1;
    }

    /** `getToken()`: the stored token, `null` when there is none. */
    function GetToken(): (t: Option<string>)
      reads store
      ensures t.Some? <==> "token" in store.items
      ensures t.Some? ==> t.value == store.items["token"]
    {
      store.GetItem("token")
    }

    /** `saveToken(responseData)`. On a `null` or `undefined` body the read
        of `token` throws before anything is stored (`saved` is false). */
    method SaveToken(data: Json) returns (saved: bool)
      modifies store
      ensures saved == !IsNullish(data)
      ensures store.items == if saved then SavedSession(old(store.items), data) else old(store.items)
    {
      if IsNullish(data) {
        return false;
      }
      store.SetItem("token", JsString(Prop(data, "token")));
      store.SetItem("role", JsString(Prop(data, "role")));
      saved := true;
    }

    /** `stopLogoutTimer()`: clears the pending timeout, if any. Running it
        again changes nothing. */
    method StopLogoutTimer()
      requires Valid()
      modifies this
      ensures Valid()
      ensures logoutTimer == None && timeouts == map[]
      ensures nextTimerId == old(nextTimerId)
    {
      if logoutTimer.Some? {
        timeouts := timeouts - {logoutTimer.value};
        logoutTimer := None;
      }
    }

    /** `startLogoutTimer()` at time `now`: cancels any pending timeout, then
        schedules `logout` four hours ahead. Afterwards exactly one timeout
        is pending. */
    method StartLogoutTimer(now: int)
      requires Valid()
      modifies this
      ensures Valid()
      ensures logoutTimer == Some(old(nextTimerId))
      ensures timeouts == map[old(nextTimerId) := now + FOUR_HOURS_MS]
    {
      StopLogoutTimer();
      var id := nextTimerId;
      nextTimerId := nextTimerId + 1;
      timeouts := timeouts[id := now + FOUR_HOURS_MS];
      logoutTimer := Some(id);
    }

    /** `logout()`: removes both session keys and cancels the expiry
        timeout. The page reload that follows is not modelled. */
    method Logout()
      requires Valid()
      modifies this, store
      ensures Valid()
      ensures store.items == ClearedSession(old(store.items))
      ensures logoutTimer == None && timeouts == map[]
    {
      store.RemoveItem("token");
      store.RemoveItem("role");
      StopLogoutTimer();
    }

    /** The browser's clock reaches `now`: a pending expiry timeout that is
        due fires, leaves the browser's list and runs `logout`; otherwise
        nothing happens. A timeout cancelled earlier never fires. */
    method Tick(now: int)
      requires Valid()
      modifies this, store
      ensures Valid()
      ensures var due := old(logoutTimer).Some? && old(logoutTimer).value in old(timeouts)
                         && old(timeouts)[old(logoutTimer).value] <= now;
              if due then store.items == ClearedSession(old(store.items)) && logoutTimer == None && timeouts == map[]
              else store.items == old(store.items) && logoutTimer == old(logoutTimer) && timeouts == old(timeouts)
    {
      if logoutTimer.Some? && logoutTimer.value in timeouts && timeouts[logoutTimer.value] <= now {
        timeouts := timeouts - {logoutTimer.value};
        Logout();
      }
    }

    /** `login(email, password)` at time `now`: posts the credentials; on a
        2xx answer stores the session from the body and restarts the expiry
        timeout; any failure leaves the session and the timeout as they
        were. */
    method Login(email: string, password: string, now: int) returns (r: Call<AuthResult>)
      requires Valid()
      modifies this, store, net
      ensures Valid()
      ensures net.sent == old(net.sent) + [LoginRequest(email, password)]
      ensures r == LoginResult(net.server(|old(net.sent)|, LoginRequest(email, password)))
      ensures r.Returned? && r.value.ok ==>
                && store.items == SavedSession(old(store.items), r.value.responseData)
                && logoutTimer == Some(old(nextTimerId))
                && timeouts == map[old(nextTimerId) := now + FOUR_HOURS_MS]
      ensures !(r.Returned? && r.value.ok) ==>
                && store.items == old(store.items)
                && logoutTimer == old(logoutTimer)
                && timeouts == old(timeouts)
    {
      var o := net.Send(LoginRequest(email, password));
      match o {
        case Success(data, _) =>
          var saved := SaveToken(data);
          if !saved {
            r := HandleError(WithoutResponse(TypeError));
            return;
          }
          StartLogoutTimer(now);
          r := Returned(AuthResult(true, data));
        case HttpError(data, _) =>
          r := HandleError(WithResponse(data));
        case NoResponse =>
          r := HandleError(WithoutResponse(NetworkFailure));
      }
    }

    /** `register(name, email, password)`: posts the new account. It touches
        neither the session nor the timeout, whatever the outcome. */
    method Register(name: string, email: string, password: string) returns (r: Call<AuthResult>)
      modifies net
      ensures net.sent == old(net.sent) + [RegisterRequest(name, email, password)]
      ensures r == RegisterResult(net.server(|old(net.sent)|, RegisterRequest(name, email, password)))
    {
      var o := net.Send(RegisterRequest(name, email, password));
      match o {
        case Success(data, _) =>
          r := Returned(AuthResult(true, data));
        case HttpError(data, _) =>
          r := HandleError(WithResponse(data));
        case NoResponse =>
          r := HandleError(WithoutResponse(NetworkFailure));
      }
    }
  }
}
