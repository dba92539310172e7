/**
  The account endpoints (server/internal/user/handler.go): each handler maps
  the request binding and the service's outcome to an HTTP status, a JSON
  body and what happens to the refresh-token cookie. The refresh token
  travels only in that cookie; the body carries the access token and its
  lifetime.
 */
module UserHandler {
  import opened Base
  import Auth
  import opened Users

  const RefreshTokenCookieName: string := "refresh_token"
  const CookiePath: string := "/api/auth"

  const StatusOk: int := 200
  const StatusCreated: int := 201
  const StatusUnauthorized: int := 401
  const StatusNotFound: int := 404
  const StatusConflict: int := 409
  const StatusUnprocessableEntity: int := 422
  const StatusInternalServerError: int := 500

  /** The cookie settings: the refresh-token lifetime in whole seconds, the domain and the Secure flag. */
  datatype Config = Config(refreshTokenTtlSeconds: int, cookieDomain: string, cookieSecure: bool)

  datatype Cookie = Cookie(
    name: string, value: string, maxAge: int, path: string,
    domain: string, secure: bool, httpOnly: bool, sameSiteStrict: bool)

  datatype Body =
    | ErrorBody(error: string)
    | TokenBody(accessToken: string, expiresIn: int)
    | MessageBody(message: string)
    | UserBody(user: UserResponse)

  /** A reply: status, body, and the Set-Cookie header if one is sent. */
  datatype Response = Response(status: int, body: Body, cookie: Option<Cookie>)

  /** `setRefreshTokenCookie`. */
  function RefreshCookie(config: Config, refreshToken: string): Cookie {
    Cookie(RefreshTokenCookieName, refreshToken, config.refreshTokenTtlSeconds, CookiePath,
           config.cookieDomain, config.cookieSecure, true, true)
  }

  /** `clearRefreshTokenCookie`: an empty value with Max-Age -1, which deletes the cookie. */
  function ClearedCookie(config: Config): Cookie {
    Cookie(RefreshTokenCookieName, "", -1, CookiePath, config.cookieDomain, config.cookieSecure, true, true)
  }

  /** A successful token endpoint: a fresh refresh cookie and the access token in the body. */
  function TokenResponse(config: Config, status: int, tokens: Tokens): Response {
    Response(status, TokenBody(tokens.accessToken, tokens.expiresIn), Some(RefreshCookie(config, tokens.refreshToken)))
  }

  /** `Register`, given the binding error (if any) and, when the body bound, the service's outcome. */
  function Register(config: Config, bindError: Option<string>, outcome: Result<Tokens, Error>): Response {
    match bindError
    case Some(e) => Response(StatusUnprocessableEntity, ErrorBody(e), None)
    case None =>
      match outcome
      case Err(ErrUserAlreadyExists) => Response(StatusConflict, ErrorBody("user with this email already exists"), None)
      case Err(_) => Response(StatusInternalServerError, ErrorBody("failed to register user"), None)
      case Ok(tokens) => TokenResponse(config, StatusCreated, tokens)
  }

  function Login(config: Config, bindError: Option<string>, outcome: Result<Tokens, Error>): Response {
    match bindError
    case Some(e) => Response(StatusUnprocessableEntity, ErrorBody(e), None)
    case None =>
      match outcome
      case Err(ErrInvalidCredentials) => Response(StatusUnauthorized, ErrorBody("invalid email or password"), None)
      case Err(_) => Response(StatusInternalServerError, ErrorBody("failed to login"), None)
      case Ok(tokens) => TokenResponse(config, StatusOk, tokens)
  }

  /** `RefreshToken`, given the request's refresh cookie (if any) and, when there is one, the service's outcome. */
  function RefreshToken(config: Config, cookie: Option<string>, outcome: Result<Tokens, Error>): Response {
    match cookie
    case None => Response(StatusUnauthorized, ErrorBody("refresh token not found"), None)
    case Some(_) =>
      match outcome
      case Err(Token(ErrExpiredToken)) => Response(StatusUnauthorized, ErrorBody("refresh token has expired"), Some(ClearedCookie(config)))
      case Err(Token(ErrInvalidToken)) => Response(StatusUnauthorized, ErrorBody("invalid refresh token"), Some(ClearedCookie(config)))
      case Err(_) => Response(StatusInternalServerError, ErrorBody("failed to refresh tokens"), Some(ClearedCookie(config)))
      case Ok(tokens) => TokenResponse(config, StatusOk, tokens)
  }

  function Logout(config: Config): Response {
    Response(StatusOk, MessageBody("logged out successfully"), Some(ClearedCookie(config)))
  }

  /** `GetCurrentUser`, given the user ID the auth middleware stored (if any) and the service's outcome. */
  function GetCurrentUser(userId: Option<Auth.UserId>, outcome: Result<UserResponse, Error>): Response {
    match userId
    case None => Response(StatusUnauthorized, ErrorBody("user not authenticated"), None)
    case Some(_) =>
      match outcome
      case Err(ErrUserNotFound) => Response(StatusNotFound, ErrorBody("user not found"), None)
      case Err(_) => Response(StatusInternalServerError, ErrorBody("failed to get user"), None)
      case Ok(user) => Response(StatusOk, UserBody(user), None)
  }

  /** A cookie as the handlers set it: HttpOnly, SameSite=Strict, scoped to the auth routes. */
  predicate WellScoped(config: Config, c: Cookie) {
    && c.name == RefreshTokenCookieName && c.path == CookiePath && c.httpOnly && c.sameSiteStrict
    && c.domain == config.cookieDomain && c.secure == config.cookieSecure
  }

  /** Register's status table: 422 for a bad body, 409 for a taken e-mail, 500 for anything else that fails, 201 otherwise. */
  lemma RegisterStatuses(config: Config, bindError: Option<string>, outcome: Result<Tokens, Error>)
    ensures var r := Register(config, bindError, outcome);
      && (bindError.Some? ==> r.status == StatusUnprocessableEntity && r.cookie.None?)
      && (bindError.None? && outcome == Err(ErrUserAlreadyExists) ==> r.status == StatusConflict && r.cookie.None?)
      && (bindError.None? && outcome.Err? && outcome != Err(ErrUserAlreadyExists) ==>
            r.status == StatusInternalServerError && r.cookie.None?)
      && (r.status == StatusCreated <==> bindError.None? && outcome.Ok?)
  {
  }

  /** Login's status table: 422 for a bad body, 401 for bad credentials, 500 for anything else that fails, 200 otherwise. */
  lemma LoginStatuses(config: Config, bindError: Option<string>, outcome: Result<Tokens, Error>)
    ensures var r := Login(config, bindError, outcome);
      && (bindError.Some? ==> r.status == StatusUnprocessableEntity && r.cookie.None?)
      && (bindError.None? && outcome == Err(ErrInvalidCredentials) ==> r.status == StatusUnauthorized && r.cookie.None?)
      && (bindError.None? && outcome.Err? && outcome != Err(ErrInvalidCredentials) ==>
            r.status == StatusInternalServerError && r.cookie.None?)
      && (r.status == StatusOk <==> bindError.None? && outcome.Ok?)
  {
  }

  /**
    A refresh without the cookie is 401 and leaves the cookie alone; every
    failed refresh clears the cookie, with 401 for an expired or invalid
    token (two different messages) and 500 otherwise.
   */
  lemma RefreshStatuses(config: Config, cookie: Option<string>, outcome: Result<Tokens, Error>)
    ensures var r := RefreshToken(config, cookie, outcome);
      && (cookie.None? ==> r.status == StatusUnauthorized && r.cookie.None?)
      && (cookie.Some? && outcome.Err? ==> r.cookie == Some(ClearedCookie(config)))
      && (cookie.Some? && outcome.Err? ==>
            (r.status == StatusUnauthorized <==> outcome.error.Token?))
      && (cookie.Some? && outcome == Err(Token(Auth.ErrExpiredToken)) ==> r.body == ErrorBody("refresh token has expired"))
      && (cookie.Some? && outcome == Err(Token(Auth.ErrInvalidToken)) ==> r.body == ErrorBody("invalid refresh token"))
      && (r.status == StatusOk <==> cookie.Some? && outcome.Ok?)
  {
  }

  /**
    Every successful register, login or refresh sets a fresh refresh cookie
    holding the new refresh token for the configured lifetime, and the body
    holds only the access token and its lifetime.
   */
  lemma SuccessSetsRefreshCookie(config: Config, tokens: Tokens)
    ensures var expected := Some(RefreshCookie(config, tokens.refreshToken));
      && Register(config, None, Ok(tokens)).cookie == expected
      && Login(config, None, Ok(tokens)).cookie == expected
      && RefreshToken(config, Some(tokens.refreshToken), Ok(tokens)).cookie == expected
    ensures var body := TokenBody(tokens.accessToken, tokens.expiresIn);
      && Register(config, None, Ok(tokens)).body == body
      && Login(config, None, Ok(tokens)).body == body
      && RefreshToken(config, Some(tokens.refreshToken), Ok(tokens)).body == body
  {
  }

  /** Logout always clears the cookie and answers 200. */
  lemma LogoutClears(config: Config)
    ensures Logout(config).status == StatusOk && Logout(config).cookie == Some(ClearedCookie(config))
  {
  }

  /**
    Whatever a handler sets is the refresh-token cookie with HttpOnly,
    SameSite=Strict and path /api/auth; its Max-Age is the refresh lifetime
    when it carries a token and -1 when it clears it.
   */
  lemma CookieAttributes(config: Config, bindError: Option<string>, cookie: Option<string>, outcome: Result<Tokens, Error>)
    ensures forall r :: r in [Register(config, bindError, outcome), Login(config, bindError, outcome),
                              RefreshToken(config, cookie, outcome), Logout(config)] && r.cookie.Some? ==>
      && WellScoped(config, r.cookie.value)
      && (r.cookie.value.maxAge == config.refreshTokenTtlSeconds || (r.cookie.value.maxAge == -1 && r.cookie.value.value == ""))
  {
  }

  /** The current-user table: 401 without an authenticated user, 404 for an unknown one, 500 on other errors, 200 otherwise. */
  lemma CurrentUserStatuses(userId: Option<Auth.UserId>, outcome: Result<UserResponse, Error>)
    ensures var r := GetCurrentUser(userId, outcome);
      && (userId.None? ==> r.status == StatusUnauthorized)
      && (userId.Some? && outcome == Err(ErrUserNotFound) ==> r.status == StatusNotFound)
      && (userId.Some? && outcome.Err? && outcome != Err(ErrUserNotFound) ==> r.status == StatusInternalServerError)
      && (userId.Some? && outcome.Ok? ==> r == Response(StatusOk, UserBody(outcome.value), None))
      && r.cookie.None?
  {
  }
}
