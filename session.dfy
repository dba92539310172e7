/**
  The browser-side authentication session (client/src/composables/useAuth.ts).

  The module-level cells of the composable (`accessToken`, `user`, `isLoading`,
  `error`, `tokenExpiry`, `refreshTimer`) become the fields of one
  SessionManager object; every operation that overwrites them is a method.
  The server is a Network object that hands out scripted replies, one queue
  per endpoint, and records every request it was sent. The clock (`Date.now()`)
  is a parameter, and the runtime's timer table is the field `pending`.
 */
module Session {
  import opened Base
  import Text

  datatype User = User(id: string, email: string)

  datatype TokenResponse = TokenResponse(accessToken: string, expiresIn: int)

  /**
    What `response.json()` yields: text that is not JSON, the literal `null`,
    or an object, read as the expected shape `T` together with the value of its
    `error` property when that is a string.
   */
  datatype Body<T> = Malformed | JsonNull | Object(value: T, errorField: Option<string>)

  /** What `fetch` produced: it rejected (no response), or a status and a body. */
  datatype Reply<T> = Unreachable | Response(status: nat, body: Body<T>)

  /** The `{data, error, status}` value `request` resolves to. */
  datatype Fetched<T> = Fetched(data: Option<T>, error: Option<string>, status: nat)

  const NetworkErrorMessage := "Network error. Please try again."

  /** `response.ok`. */
  predicate IsOk(status: nat) { 200 <= status <= 299 }

  function StatusMessage(status: nat): string {
    "Request failed with status " + Text.NatToString(status)
  }

  /**
    `request`: every outcome of the call becomes a value, never an exception.
    A rejected fetch, and a body that fails to parse on a 2xx reply, give
    status 0 and the network-error message; a non-2xx reply gives the body's
    `error` text when it is a non-empty string and the status message
    otherwise. (A non-2xx reply whose body is `null` makes `errorData.error`
    throw inside the `try`, which also ends in the network error.)
   */
  function Request<T>(reply: Reply<T>): (r: Fetched<T>)
    ensures r.error.None? <==> reply.Response? && IsOk(reply.status) && !reply.body.Malformed?
    ensures r.data.Some? <==> reply.Response? && IsOk(reply.status) && reply.body.Object?
    ensures r.data.Some? ==> r.data.value == reply.body.value
    ensures r.error.Some? ==> r.data.None? && r.error.value != ""
    ensures r.status != 0 ==> reply.Response? && r.status == reply.status
    ensures reply.Unreachable? ==> r.status == 0 && r.error == Some(NetworkErrorMessage)
    ensures reply.Response? && !IsOk(reply.status) && reply.body.Malformed? ==>
      r.status == reply.status && r.error == Some(StatusMessage(reply.status))
    ensures reply.Response? && !IsOk(reply.status) && reply.body.Object? ==>
      r.status == reply.status &&
      r.error == Some(match reply.body.errorField
                      case Some(e) => if e != "" then e else StatusMessage(reply.status)
                      case None => StatusMessage(reply.status))
    ensures reply.Response? && ((!IsOk(reply.status) && reply.body.JsonNull?) || (IsOk(reply.status) && reply.body.Malformed?)) ==>
      r == Fetched(None, Some(NetworkErrorMessage), 0)
    ensures reply.Response? && IsOk(reply.status) && reply.body.JsonNull? ==> r == Fetched(None, None, reply.status)
    ensures reply.Response? && IsOk(reply.status) && reply.body.Object? ==> r == Fetched(Some(reply.body.value), None, reply.status)
  {
    match reply
    case Unreachable => Fetched(None, Some(NetworkErrorMessage), 0)
    case Response(status, body) =>
      if !IsOk(status) then
        match body
        case Malformed => Fetched(None, Some(StatusMessage(status)), status)
        case JsonNull => Fetched(None, Some(NetworkErrorMessage), 0)
        case Object(_, e) =>
          var message := if e.Some? && e.value != "" then e.value else StatusMessage(status);
          Fetched(None, Some(message), status)
      else
        match body
        case Malformed => Fetched(None, Some(NetworkErrorMessage), 0)
        case JsonNull => Fetched(None, None, status)
        case Object(v, _) => Fetched(Some(v), None, status)
  }

  /** The callers' test `err || !data`: the request produced no usable payload. */
  predicate Failed<T>(r: Fetched<T>) { r.error.Some? || r.data.None? }

  /**
    The delay before the proactive refresh: 60 seconds before expiry, but
    never sooner than 10 seconds.
   */
  function RefreshDelay(expiresInSeconds: int): (ms: int)
    ensures ms >= 10000
    ensures ms >= (expiresInSeconds - 60) * 1000
    ensures ms == 10000 || ms == (expiresInSeconds - 60) * 1000
  {
    if (expiresInSeconds - 60) * 1000 > 10000 then (expiresInSeconds - 60) * 1000 else 10000
  }

  lemma RefreshDelayExamples()
    ensures RefreshDelay(120) == 60000
    ensures RefreshDelay(30) == 10000
    ensures RefreshDelay(70) == 10000
  {
  }

  /** The next scripted reply of an endpoint; once the script is used up, fetch rejects. */
  function NextReply<T>(q: seq<Reply<T>>): Reply<T> {
    if q == [] then Unreachable else q[0]
  }

  function Rest<T>(q: seq<Reply<T>>): seq<Reply<T>> {
    if q == [] then [] else q[1..]
  }

  /** The five URLs of `ENDPOINTS`: /api/auth/{register,login,logout,refresh} and /api/user/me. */
  datatype Endpoint = AuthRegister | AuthLogin | AuthLogout | AuthRefresh | UserMe

  /** One request as the server saw it: endpoint, bearer header and JSON credentials. */
  datatype Sent = Sent(endpoint: Endpoint, authorization: Option<string>, credentials: Option<(string, string)>)

  /** The server side of the session: scripted replies per endpoint and a log of requests. */
  class Network {
    var registerReplies: seq<Reply<TokenResponse>>
    var loginReplies: seq<Reply<TokenResponse>>
    var refreshReplies: seq<Reply<TokenResponse>>
    var meReplies: seq<Reply<User>>
    var logoutReplies: seq<Reply<()>>
    var sent: seq<Sent>

    constructor (register: seq<Reply<TokenResponse>>, login: seq<Reply<TokenResponse>>,
                 refresh: seq<Reply<TokenResponse>>, me: seq<Reply<User>>, logout: seq<Reply<()>>)
      ensures registerReplies == register && loginReplies == login && refreshReplies == refresh
      ensures meReplies == me && logoutReplies == logout && sent == []
    {
      registerReplies, loginReplies, refreshReplies := register, login, refresh;
      meReplies, logoutReplies, sent := me, logout, [];
    }

    /** POST to one of the three endpoints that answer with a token pair. */
    method PostForTokens(e: Endpoint, credentials: Option<(string, string)>) returns (reply: Reply<TokenResponse>)
      requires e == AuthRegister || e == AuthLogin || e == AuthRefresh
      modifies this
      ensures sent == old(sent) + [Sent(e, None, credentials)]
      ensures e == AuthRegister ==> reply == NextReply(old(registerReplies)) && registerReplies == Rest(old(registerReplies))
      ensures e == AuthLogin ==> reply == NextReply(old(loginReplies)) && loginReplies == Rest(old(loginReplies))
      ensures e == AuthRefresh ==> reply == NextReply(old(refreshReplies)) && refreshReplies == Rest(old(refreshReplies))
      ensures e != AuthRegister ==> registerReplies == old(registerReplies)
      ensures e != AuthLogin ==> loginReplies == old(loginReplies)
      ensures e != AuthRefresh ==> refreshReplies == old(refreshReplies)
      ensures meReplies == old(meReplies) && logoutReplies == old(logoutReplies)
    {
      sent := sent + [Sent(e, None, credentials)];
      if e == AuthRegister {
        reply := NextReply(registerReplies);
        registerReplies := Rest(registerReplies);
      } else if e == AuthLogin {
        reply := NextReply(loginReplies);
        loginReplies := Rest(loginReplies);
      } else {
        reply := NextReply(refreshReplies);
        refreshReplies := Rest(refreshReplies);
      }
    }

    method GetMe(authorization: string) returns (reply: Reply<User>)
      modifies this
      ensures sent == old(sent) + [Sent(UserMe, Some(authorization), None)]
      ensures reply == NextReply(old(meReplies)) && meReplies == Rest(old(meReplies))
      ensures registerReplies == old(registerReplies) && loginReplies == old(loginReplies)
      ensures refreshReplies == old(refreshReplies) && logoutReplies == old(logoutReplies)
    {
      sent := sent + [Sent(UserMe, Some(authorization), None)];
      reply := NextReply(meReplies);
      meReplies := Rest(meReplies);
    }

    method PostLogout() returns (reply: Reply<()>)
      modifies this
      ensures sent == old(sent) + [Sent(AuthLogout, None, None)]
      ensures reply == NextReply(old(logoutReplies)) && logoutReplies == Rest(old(logoutReplies))
      ensures registerReplies == old(registerReplies) && loginReplies == old(loginReplies)
      ensures refreshReplies == old(refreshReplies) && meReplies == old(meReplies)
    {
      sent := sent + [Sent(AuthLogout, None, None)];
      reply := NextReply(logoutReplies);
      logoutReplies := Rest(logoutReplies);
    }
  }

  /** A timer the runtime holds: its handle and its delay in milliseconds. */
  datatype Timer = Timer(id: nat, delayMs: int)

  /** `clearTimeout(id)`: the runtime forgets the timer with that handle, if it is still pending. */
  function Cancel(pending: seq<Timer>, id: nat): (r: seq<Timer>)
    ensures |r| <= |pending|
    ensures forall k :: 0 <= k < |r| ==> r[k].id != id && r[k] in pending
    ensures forall t :: t in pending && t.id != id ==> t in r
  {
    if pending == [] then []
    else if pending[0].id == id then Cancel(pending[1..], id)
    else [pending[0]] + Cancel(pending[1..], id)
  }

  class SessionManager {
    var accessToken: Option<string>
    var user: Option<User>
    var isLoading: bool
    var error: Option<string>
    var tokenExpiry: Option<int>
    /** The handle `setTimeout` returned for the last armed refresh, until it is cleared. */
    var refreshTimer: Option<nat>
    /** The refresh timers the runtime still holds (armed, neither fired nor cancelled). */
    var pending: seq<Timer>
    /** The handle the runtime gives the next timer; handles are positive, hence truthy. */
    var nextTimerId: nat

    /**
      At most one refresh timer is ever pending, and it is the one whose handle
      the session remembers. After a timer fires, the handle stays behind until
      the next clear, as in the source.
     */
    ghost predicate Valid()
      reads this
    {
      && nextTimerId >= 1
      && |pending| <= 1
      && (|pending| == 1 ==> refreshTimer == Some(pending[0].id))
      && (refreshTimer.Some? ==> 1 <= refreshTimer.value < nextTimerId)
    }

    /** No token, no expiry, no user, no error and no timer. */
    ghost predicate Anonymous()
      reads this
    {
      accessToken.None? && tokenExpiry.None? && user.None? && error.None? &&
      refreshTimer.None? && pending == []
    }

    /**
      The state a successful sign-in leaves, given the token pair t it received,
      the answer m of the current-user endpoint, whether the refresh a 401 would
      trigger fails, and the user and next timer handle before the call. The
      token is installed with its expiry and one refresh timer unless `/me`
      answered 401: then the refresh decides, and a failed refresh leaves the
      session anonymous. A non-empty token and a good `/me` answer authenticate
      the session; an empty token (nothing is asked) or a failed answer keeps the
      previous user.
     */
    ghost predicate SignedIn(t: TokenResponse, m: Fetched<User>, refreshFails: bool, user0: Option<User>, timer0: nat, now: int)
      reads this
    {
      && ((t.accessToken == "" || m.status != 401) ==>
            && accessToken == Some(t.accessToken)
            && tokenExpiry == Some(now + t.expiresIn * 1000)
            && pending == [Timer(timer0, RefreshDelay(t.expiresIn))]
            && (t.accessToken != "" && !Failed(m) ==> user == m.data && IsAuthenticated())
            && (t.accessToken == "" || Failed(m) ==> user == user0))
      && (t.accessToken != "" && m.status == 401 && refreshFails ==> Anonymous())
    }

    /** The state at page load. */
    constructor ()
      ensures Valid() && Anonymous() && !isLoading
    {
      accessToken, user, isLoading, error := None, None, false, None;
      tokenExpiry, refreshTimer := None, None;
      pending, nextTimerId := [], 1;
    }

    /** `isAuthenticated`: a token and a user are both present. */
    function IsAuthenticated(): (b: bool)
      reads this
      ensures b <==> accessToken.Some? && user.Some?
      ensures Anonymous() ==> !b
    {
      accessToken.Some? && user.Some?
    }

    /** `getAccessToken`: the token the session holds, if any; an authenticated session always has one. */
    function GetAccessToken(): (r: Option<string>)
      reads this
      ensures IsAuthenticated() ==> r.Some?
      ensures Anonymous() ==> r.None?
    {
      accessToken
    }

    /** `clearRefreshTimer`: no timer stays pending. */
    method ClearRefreshTimer()
      requires Valid()
      modifies this
      ensures Valid()
      ensures refreshTimer.None? && pending == []
      ensures nextTimerId == old(nextTimerId)
      ensures accessToken == old(accessToken) && user == old(user) && isLoading == old(isLoading)
      ensures error == old(error) && tokenExpiry == old(tokenExpiry)
    {
      if refreshTimer.Some? {
        pending := Cancel(pending, refreshTimer.value);
        refreshTimer := None;
      }
    }

    /** `scheduleTokenRefresh`: cancel the previous timer, then arm exactly one new one. */
    method ScheduleTokenRefresh(expiresInSeconds: int)
      requires Valid()
      modifies this
      ensures Valid()
      ensures pending == [Timer(old(nextTimerId), RefreshDelay(expiresInSeconds))]
      ensures refreshTimer == Some(old(nextTimerId)) && nextTimerId == old(nextTimerId) + 1
      ensures accessToken == old(accessToken) && user == old(user) && isLoading == old(isLoading)
      ensures error == old(error) && tokenExpiry == old(tokenExpiry)
    {
      ClearRefreshTimer();
      var delayMs := RefreshDelay(expiresInSeconds);
      var id := nextTimerId;
      nextTimerId := nextTimerId + 1;
      pending := pending + [Timer(id, delayMs)];
      refreshTimer := Some(id);
    }

    /** `setAuthTokens`: install the token, its expiry instant, and re-arm the refresh. */
    method SetAuthTokens(tokens: TokenResponse, now: int)
      requires Valid()
      modifies this
      ensures Valid()
      ensures accessToken == Some(tokens.accessToken)
      ensures tokenExpiry == Some(now + tokens.expiresIn * 1000)
      ensures pending == [Timer(old(nextTimerId), RefreshDelay(tokens.expiresIn))]
      ensures refreshTimer == Some(old(nextTimerId))
      ensures user == old(user) && isLoading == old(isLoading) && error == old(error)
    {
      accessToken := Some(tokens.accessToken);
      tokenExpiry := Some(now + tokens.expiresIn * 1000);
      ScheduleTokenRefresh(tokens.expiresIn);
    }

    /** `clearAuthState`: back to the anonymous state; only `isLoading` is left alone. */
    method ClearAuthState()
      requires Valid()
      modifies this
      ensures Valid() && Anonymous()
      ensures isLoading == old(isLoading) && nextTimerId == old(nextTimerId)
    {
      accessToken := None;
      tokenExpiry := None;
      user := None;
      error := None;
      ClearRefreshTimer();
    }

    /**
      `refreshTokens`: ask the refresh endpoint (authorised by the cookie only)
      for a new token. On success the token is installed and true returned; on
      any failure the whole session is cleared, `error` included.
     */
    method RefreshTokens(net: Network, now: int) returns (ok: bool)
      requires Valid()
      modifies this, net
      ensures Valid()
      ensures var r := Request(NextReply(old(net.refreshReplies)));
        && (ok <==> !Failed(r))
        && (ok ==> accessToken == Some(r.data.value.accessToken)
                   && tokenExpiry == Some(now + r.data.value.expiresIn * 1000)
                   && pending == [Timer(old(nextTimerId), RefreshDelay(r.data.value.expiresIn))]
                   && user == old(user) && error == old(error))
      ensures !ok ==> Anonymous()
      ensures isLoading == old(isLoading)
      ensures net.sent == old(net.sent) + [Sent(AuthRefresh, None, None)]
      ensures net.refreshReplies == Rest(old(net.refreshReplies))
      ensures net.meReplies == old(net.meReplies) && net.loginReplies == old(net.loginReplies)
      ensures net.registerReplies == old(net.registerReplies) && net.logoutReplies == old(net.logoutReplies)
    {
      var reply := net.PostForTokens(AuthRefresh, None);
      var r := Request(reply);
      if Failed(r) {
        ClearAuthState();
        return false;
      }
      SetAuthTokens(r.data.value, now);
      return true;
    }

    /**
      `fetchUser`. Without a (truthy) token nothing is sent and nothing changes.
      Otherwise the current-user endpoint is asked with the bearer token: a 401
      triggers a refresh, and after a successful refresh the whole fetch starts
      again (there is no depth bound; the finite reply script ends it); a failed
      refresh leaves the session anonymous. Any other failure returns nothing and
      keeps the last known user; success stores and returns the identity.
     */
    method FetchUser(net: Network, now: int) returns (u: Option<User>)
      requires Valid()
      modifies this, net
      decreases |net.meReplies|
      ensures Valid()
      ensures isLoading == old(isLoading)
      ensures u.Some? ==> user == u && accessToken.Some?
      ensures u.None? ==> user == old(user) || user.None?
      ensures error.Some? ==> error == old(error)
      ensures old(accessToken).Some? ==> accessToken.Some? || Anonymous()
      ensures old(net.sent) <= net.sent
      ensures old(accessToken).None? || old(accessToken) == Some("") ==>
        u.None? && net.sent == old(net.sent) && net.meReplies == old(net.meReplies) &&
        accessToken == old(accessToken) && user == old(user) && error == old(error) &&
        tokenExpiry == old(tokenExpiry) && pending == old(pending)
      ensures old(accessToken).Some? && old(accessToken) != Some("") ==>
        |net.sent| > |old(net.sent)| &&
        net.sent[|old(net.sent)|] == Sent(UserMe, Some("Bearer " + old(accessToken).value), None)
      ensures var r := Request(NextReply(old(net.meReplies)));
        old(accessToken).Some? && old(accessToken) != Some("") && r.status != 401 ==>
          && net.refreshReplies == old(net.refreshReplies)
          && accessToken == old(accessToken) && error == old(error)
          && tokenExpiry == old(tokenExpiry) && pending == old(pending)
          && (Failed(r) ==> u.None? && user == old(user))
          && (!Failed(r) ==> u == r.data && user == r.data)
      ensures var r := Request(NextReply(old(net.meReplies)));
        old(accessToken).Some? && old(accessToken) != Some("") && r.status == 401 &&
        Failed(Request(NextReply(old(net.refreshReplies)))) ==>
          u.None? && Anonymous()
    {
      if accessToken.None? || accessToken.value == "" {
        return None;
      }
      var reply := net.GetMe("Bearer " + accessToken.value);
      var r := Request(reply);
      if r.status == 401 {
        var refreshed := RefreshTokens(net, now);
        if refreshed {
          u := FetchUser(net, now);
          return;
        }
        ClearAuthState();
        return None;
      }
      if Failed(r) {
        return None;
      }
      user := r.data;
      return r.data;
    }

    /**
      `register` and `login` share one shape: mark loading and clear the error,
      POST the credentials; on failure store the request's error and return
      false with the token and user untouched; on success install the token,
      fetch the identity, and return true. Loading is off on every exit.
     */
    method SignIn(e: Endpoint, email: string, password: string, net: Network, now: int) returns (ok: bool)
      requires e == AuthRegister || e == AuthLogin
      requires Valid()
      modifies this, net
      ensures Valid()
      ensures !isLoading
      ensures var r := Request(NextReply(if e == AuthRegister then old(net.registerReplies) else old(net.loginReplies)));
        && (ok <==> !Failed(r))
        && (!ok ==> error == r.error && accessToken == old(accessToken) && user == old(user)
                    && tokenExpiry == old(tokenExpiry) && pending == old(pending)
                    && net.meReplies == old(net.meReplies))
      ensures ok ==> error.None?
      ensures var r := Request(NextReply(if e == AuthRegister then old(net.registerReplies) else old(net.loginReplies)));
        ok ==> SignedIn(r.data.value, Request(NextReply(old(net.meReplies))),
                        Failed(Request(NextReply(old(net.refreshReplies)))), old(user), old(nextTimerId), now)
      ensures |net.sent| > |old(net.sent)| && net.sent[|old(net.sent)|] == Sent(e, None, Some((email, password)))
    {
      isLoading := true;
      error := None;
      var reply := net.PostForTokens(e, Some((email, password)));
      var r := Request(reply);
      if Failed(r) {
        error := r.error;
        isLoading := false;
        return false;
      }
      SetAuthTokens(r.data.value, now);
      var _ := FetchUser(net, now);
      isLoading := false;
      return true;
    }

    method Register(email: string, password: string, net: Network, now: int) returns (ok: bool)
      requires Valid()
      modifies this, net
      ensures Valid() && !isLoading
      ensures var r := Request(NextReply(old(net.registerReplies)));
        && (ok <==> !Failed(r))
        && (!ok ==> error == r.error && accessToken == old(accessToken) && user == old(user)
                    && tokenExpiry == old(tokenExpiry) && pending == old(pending))
        && (ok ==> error.None?
                   && SignedIn(r.data.value, Request(NextReply(old(net.meReplies))),
                               Failed(Request(NextReply(old(net.refreshReplies)))), old(user), old(nextTimerId), now))
    {
      ok := SignIn(AuthRegister, email, password, net, now);
    }

    method Login(email: string, password: string, net: Network, now: int) returns (ok: bool)
      requires Valid()
      modifies this, net
      ensures Valid() && !isLoading
      ensures var r := Request(NextReply(old(net.loginReplies)));
        && (ok <==> !Failed(r))
        && (!ok ==> error == r.error && accessToken == old(accessToken) && user == old(user)
                    && tokenExpiry == old(tokenExpiry) && pending == old(pending))
        && (ok ==> error.None?
                   && SignedIn(r.data.value, Request(NextReply(old(net.meReplies))),
                               Failed(Request(NextReply(old(net.refreshReplies)))), old(user), old(nextTimerId), now))
    {
      ok := SignIn(AuthLogin, email, password, net, now);
    }

    /** `logout`: tell the server (its answer is ignored), then always end anonymous. */
    method Logout(net: Network)
      requires Valid()
      modifies this, net
      ensures Valid() && Anonymous()
      ensures isLoading == old(isLoading)
      ensures net.sent == old(net.sent) + [Sent(AuthLogout, None, None)]
    {
      var _ := net.PostLogout();
      ClearAuthState();
    }

    /**
      `initialize`: try to restore a session from the refresh cookie; when the
      refresh fails the session is silently anonymous (no error is shown).
     */
    method Initialize(net: Network, now: int)
      requires Valid()
      modifies this, net
      ensures Valid()
      ensures isLoading == old(isLoading)
      ensures Failed(Request(NextReply(old(net.refreshReplies)))) ==>
        Anonymous() && net.meReplies == old(net.meReplies)
      ensures !Failed(Request(NextReply(old(net.refreshReplies)))) ==> accessToken.Some?  || Anonymous()
    {
      var refreshed := RefreshTokens(net, now);
      if refreshed {
        var _ := FetchUser(net, now);
      }
    }

    /**
      The runtime fires the pending refresh timer, if there is one: the timer
      is no longer pending and the refresh flow runs. The session keeps the
      stale handle until the next clear.
     */
    method TimerFires(net: Network, now: int)
      requires Valid()
      modifies this, net
      ensures Valid()
      ensures old(pending) == [] ==> unchanged(this) && unchanged(net)
      ensures var r := Request(NextReply(old(net.refreshReplies)));
        old(pending) != [] ==>
          && net.sent == old(net.sent) + [Sent(AuthRefresh, None, None)]
          && net.refreshReplies == Rest(old(net.refreshReplies))
          && isLoading == old(isLoading)
          && (!Failed(r) ==> accessToken == Some(r.data.value.accessToken)
                             && tokenExpiry == Some(now + r.data.value.expiresIn * 1000)
                             && pending == [Timer(old(nextTimerId), RefreshDelay(r.data.value.expiresIn))]
                             && user == old(user) && error == old(error))
          && (Failed(r) ==> Anonymous())
    {
      if pending != [] {
        pending := [];
        var _ := RefreshTokens(net, now);
      }
    }
  }
}
