/**
  Bearer-token gatekeeping (server/internal/auth/middleware.go). The
  `Authorization` header must read "Bearer <token>" (section 2.1 of RFC
  6750); the prefix check is case-sensitive. Token validation (JWT) is a
  parameter: it yields the claims' user ID or one of the two token errors.
 */
module Auth {
  import opened Base
  import opened Text

  const BearerPrefix: string := "Bearer "
  const StatusUnauthorized: int := 401

  /** The two sentinel errors `ValidateAccessToken` and `ValidateRefreshToken` return. */
  datatype TokenError = ErrInvalidToken | ErrExpiredToken

  /** A user ID, as the claims carry it. */
  type UserId = Uuid

  /** What a middleware does with the request: stop it with a JSON error, or let it through. */
  datatype Decision =
    | Abort(status: int, message: string)
    | Continue(userId: Option<UserId>)

  /** The token the validator is given: the header less one leading "Bearer ", when it starts with that. */
  function BearerToken(header: string): (t: Option<string>)
    ensures t.Some? <==> HasPrefix(header, BearerPrefix)
    ensures t.Some? ==> BearerPrefix + t.value == header
  {
    if HasPrefix(header, BearerPrefix) then Some(TrimPrefix(header, BearerPrefix)) else None
  }

  /**
    `AuthMiddleware`: an empty (or missing) header and a header without the
    prefix are refused with 401 before any validation; a failed validation
    is 401 too, saying "token has expired" only for the expiry error.
   */
  function AuthMiddleware(header: string, validate: string -> Result<UserId, TokenError>): (d: Decision)
    ensures d.Abort? ==> d.status == StatusUnauthorized
    ensures header == "" ==> d == Abort(StatusUnauthorized, "authorization header required")
    ensures d.Continue? ==> d.userId.Some?
  {
    if header == "" then Abort(StatusUnauthorized, "authorization header required")
    else match BearerToken(header)
      case None => Abort(StatusUnauthorized, "invalid authorization header format")
      case Some(token) =>
        match validate(token)
        case Err(e) => Abort(StatusUnauthorized, if e == ErrExpiredToken then "token has expired" else "invalid token")
        case Ok(userId) => Continue(Some(userId))
  }

  /** `OptionalAuthMiddleware`: never stops the request; a user ID is attached only for a valid bearer token. */
  function OptionalAuthMiddleware(header: string, validate: string -> Result<UserId, TokenError>): (d: Decision)
    ensures d.Continue?
  {
    if header == "" then Continue(None)
    else match BearerToken(header)
      case None => Continue(None)
      case Some(token) =>
        match validate(token)
        case Err(_) => Continue(None)
        case Ok(userId) => Continue(Some(userId))
  }

  /** The prefix is stripped exactly once: the token of "Bearer " + t is t, whatever t holds. */
  lemma BearerTokenRoundTrip(t: string)
    ensures BearerToken(BearerPrefix + t) == Some(t)
  {
    assert (BearerPrefix + t)[..|BearerPrefix|] == BearerPrefix;
  }

  /** The prefix check is case-sensitive: a lower-case scheme is not a bearer header. */
  lemma SchemeIsCaseSensitive(t: string)
    ensures BearerToken("bearer " + t) == None
  {
    assert ("bearer " + t)[0] == 'b';
  }

  /**
    The request reaches the handler exactly when the header carries a bearer
    token that validates, and it then carries that token's user ID.
   */
  lemma AuthContinuesIffValid(header: string, validate: string -> Result<UserId, TokenError>)
    ensures AuthMiddleware(header, validate).Continue? <==>
      BearerToken(header).Some? && validate(BearerToken(header).value).Ok?
    ensures AuthMiddleware(header, validate).Continue? ==>
      AuthMiddleware(header, validate).userId == Some(validate(BearerToken(header).value).value)
  {
    if BearerToken(header).Some? {
      assert header != "" by {
        assert |header| >= |BearerPrefix|;
      }
    }
  }

  /** Every refusal is 401; the message tells which check failed. */
  lemma AuthAbortMessages(header: string, validate: string -> Result<UserId, TokenError>)
    ensures var d := AuthMiddleware(header, validate);
      d.Abort? ==>
        && d.status == StatusUnauthorized
        && (d.message == "authorization header required" <==> header == "")
        && (d.message == "invalid authorization header format" <==> header != "" && BearerToken(header).None?)
        && (d.message == "token has expired" <==>
              BearerToken(header).Some? && validate(BearerToken(header).value) == Err(ErrExpiredToken))
        && (d.message == "invalid token" <==>
              BearerToken(header).Some? && validate(BearerToken(header).value) == Err(ErrInvalidToken))
  {
    if BearerToken(header).Some? {
      assert |header| >= |BearerPrefix|;
    }
  }

  /**
    The optional middleware attaches a user exactly when the strict one
    would let the request through, and the same user.
   */
  lemma OptionalAgreesWithStrict(header: string, validate: string -> Result<UserId, TokenError>)
    ensures OptionalAuthMiddleware(header, validate).userId.Some? <==> AuthMiddleware(header, validate).Continue?
    ensures AuthMiddleware(header, validate).Continue? ==>
      OptionalAuthMiddleware(header, validate).userId == AuthMiddleware(header, validate).userId
  {
  }
}
