/**
 * AuthMiddleware: the Authorization header must read "Bearer <token>" with a
 * non-empty token that the auth service accepts; the token's subject is then
 * stored under "user_id" for later handlers, and anything else ends the request
 * with 401 and an error body.
 */
module AuthMiddleware {
  import opened Wrappers
  import opened StringOps
  import opened Settings
  import opened Jwt
  import opened HttpContext

  const AuthorizationHeader := "Authorization"
  const BearerPrefix := "Bearer "
  const UserIdKey := "user_id"
  const StatusUnauthorized := 401

  /** Why a request is turned away. */
  datatype Rejection =
    | NoHeader                  // header absent or empty
    | NotBearer                 // header does not start with "Bearer " (case-sensitive)
    | EmptyToken                // header is exactly "Bearer "
    | InvalidToken(cause: TokenError)

  /** The token part of a bearer header. */
  function BearerToken(header: string): string {
    TrimPrefix(header, BearerPrefix)
  }

  /** The gate's decision for one Authorization header: the authenticated user ID or the rejection. */
  function Authorize(header: string, secret: string, now: int, decode: string -> Option<Token>)
    : (r: Result<string, Rejection>)
    ensures r == Err(NoHeader) <==> header == ""
    ensures r == Err(NotBearer) <==> header != "" && !HasPrefix(header, BearerPrefix)
    ensures r == Err(EmptyToken) <==> header == BearerPrefix
    ensures r.Ok? <==>
      && HasPrefix(header, BearerPrefix) && |header| > |BearerPrefix|
      && ValidateJWT(secret, now, decode, header[|BearerPrefix|..]).Ok?
    ensures r.Ok? ==> r.value == ValidateJWT(secret, now, decode, header[|BearerPrefix|..]).value
    ensures r.Err? && r.error.InvalidToken? ==>
      r.error.cause == ValidateJWT(secret, now, decode, header[|BearerPrefix|..]).error
  {
    if header == "" then Err(NoHeader)
    else if !HasPrefix(header, BearerPrefix) then Err(NotBearer)
    else
      var token := BearerToken(header);
      if token == "" then Err(EmptyToken)
      else match ValidateJWT(secret, now, decode, token)
        case Ok(userId) => Ok(userId)
        case Err(e) => Err(InvalidToken(e))
  }

  /** The error text a rejection is reported with. */
  function TokenErrorText(e: TokenError): string {
    match e
    case Malformed => "token is malformed"
    case UnavailableAlgorithm => "token is unverifiable"
    case UnexpectedSigningMethod => "token is unverifiable"
    case SignatureInvalid => "token signature is invalid"
    case ClaimsInvalid => "token has invalid claims"
  }

  /** The 401 body for each rejection; both the missing header and the empty token are "missing_token". */
  function RejectionBody(rejection: Rejection): (b: Body)
    ensures b.ErrorBody?
    ensures b.error == "missing_token" <==> rejection.NoHeader? || rejection.EmptyToken?
    ensures b.error == "invalid_token" <==> rejection.InvalidToken?
    ensures b.error == "invalid_token_format" <==> rejection.NotBearer?
  {
    match rejection
    case NoHeader => ErrorBody("missing_token", "Authorization header is required")
    case NotBearer => ErrorBody("invalid_token_format", "Authorization header must start with 'Bearer '")
    case EmptyToken => ErrorBody("missing_token", "Token is required")
    case InvalidToken(e) => ErrorBody("invalid_token", "Invalid or expired token: failed to parse JWT: " + TokenErrorText(e))
  }

  /** The handler: reject with 401 and abort, or record the user ID and continue. */
  method Handle(c: Context, jwt: JwtConfig, now: int, decode: string -> Option<Token>)
    requires !c.aborted && !c.passed
    modifies c
    ensures var r := Authorize(c.GetHeader(AuthorizationHeader), jwt.secret, now, decode);
      && (r.Ok? ==>
            && c.passed && !c.aborted && c.keys == old(c.keys)[UserIdKey := r.value]
            && c.status == old(c.status) && c.body == old(c.body))
      && (r.Err? ==>
            && c.aborted && !c.passed && c.keys == old(c.keys)
            && c.status == StatusUnauthorized && c.body == RejectionBody(r.error))
    ensures c.header == old(c.header)
  {
    var authHeader := c.GetHeader(AuthorizationHeader);
    var r := Authorize(authHeader, jwt.secret, now, decode);
    if r.Err? {
      c.JSON(StatusUnauthorized, RejectionBody(r.error));
      c.Abort();
      return;
    }
    c.Set(UserIdKey, r.value);
    c.Next();
  }

  /** A token this service issued, presented as "Bearer <text>" before it expires, admits its user. */
  lemma {:induction false} IssuedTokenAdmitted(cfg: JwtConfig, userId: string, issuedClock: int, expiryClock: int,
                                               now: int, text: string, decode: string -> Option<Token>)
    requires text != "" && decode(text) == Some(GenerateJWT(cfg, userId, issuedClock, expiryClock))
    requires now < expiryClock + cfg.expiration
    ensures Authorize(BearerPrefix + text, cfg.secret, now, decode) == Ok(userId)
  {
    TrimPrefixAfterPrefix(BearerPrefix, text);
    IssuedTokenValidates(cfg, userId, issuedClock, expiryClock, now);
  }

  /** The same token presented at or after its expiry is rejected as invalid. */
  lemma {:induction false} ExpiredTokenRefused(cfg: JwtConfig, userId: string, issuedClock: int, expiryClock: int,
                                               now: int, text: string, decode: string -> Option<Token>)
    requires text != "" && decode(text) == Some(GenerateJWT(cfg, userId, issuedClock, expiryClock))
    requires expiryClock + cfg.expiration <= now
    ensures Authorize(BearerPrefix + text, cfg.secret, now, decode) == Err(InvalidToken(ClaimsInvalid))
  {
    TrimPrefixAfterPrefix(BearerPrefix, text);
    IssuedTokenValidates(cfg, userId, issuedClock, expiryClock, now);
  }

  /** The scheme name is matched exactly: a lower-case "bearer " header is a format error, whatever follows. */
  lemma {:induction false} SchemeIsCaseSensitive(text: string, secret: string, now: int, decode: string -> Option<Token>)
    ensures Authorize("bearer " + text, secret, now, decode) == Err(NotBearer)
  {
    assert ("bearer " + text)[0] != BearerPrefix[0];
  }
}
