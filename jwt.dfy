/**
 * Session tokens: RFC 7519 registered claims `sub`, `iat`, `exp` (and `nbf`, which the
 * validator honours when present), signed with HMAC (HS256 is RFC 7518 section 3.2).
 *
 * The cryptography is ideal: a signature is the record of the key, the algorithm named in
 * the header and the claims it covers, so a signature verifies only under the key and
 * algorithm that produced it. Decoding the compact text form is the JWT library's job and
 * enters as the parameter `decode`.
 */
module Jwt {
  import opened Wrappers
  import opened Settings

  /** The `alg` header: the HMAC family, the library's other registered methods, `none`, or a name it does not know. */
  datatype Alg = HS256 | HS384 | HS512 | OtherRegistered(name: string) | NoneAlg | Unregistered(name: string)

  /** The check in ValidateJWT's key function: the method is one of the HMAC methods. */
  predicate IsHmac(a: Alg) {
    a.HS256? || a.HS384? || a.HS512?
  }

  datatype Claims = Claims(subject: string, issuedAt: Option<int>, expiresAt: Option<int>, notBefore: Option<int>)

  /** An ideal MAC over the header's algorithm and the claims. */
  datatype Signature = Mac(key: string, alg: Alg, claims: Claims)

  datatype Token = Token(alg: Alg, claims: Claims, signature: Signature)

  /** Why a token was refused; callers see only that it was refused. */
  datatype TokenError = Malformed | UnavailableAlgorithm | UnexpectedSigningMethod | SignatureInvalid | ClaimsInvalid

  function Sign(key: string, alg: Alg, claims: Claims): Token {
    Token(alg, claims, Mac(key, alg, claims))
  }

  /** generateJWT: HS256 over subject, issued-at and expiry. Issued-at and expiry come from two
      separate readings of the clock. */
  function GenerateJWT(cfg: JwtConfig, userId: string, issuedClock: int, expiryClock: int): Token {
    Sign(cfg.secret, HS256, Claims(userId, Some(issuedClock), Some(expiryClock + cfg.expiration), None))
  }

  /** The time-based claims the library checks by default: `exp` (strictly before) and `nbf`; `iat` is not checked. */
  predicate ClaimsValid(c: Claims, now: int) {
    (c.expiresAt.None? || now < c.expiresAt.value) && (c.notBefore.None? || c.notBefore.value <= now)
  }

  /** ValidateJWT on a decoded token, in the library's order: method lookup, the key function's
      HMAC check, the signature, then the claims. On acceptance, the subject. */
  function ValidateToken(secret: string, now: int, parsed: Option<Token>): (r: Result<string, TokenError>)
    ensures r.Ok? <==>
      && parsed.Some?
      && IsHmac(parsed.value.alg)
      && parsed.value == Sign(secret, parsed.value.alg, parsed.value.claims)
      && ClaimsValid(parsed.value.claims, now)
    ensures r.Ok? ==> r.value == parsed.value.claims.subject
  {
    match parsed
    case None => Err(Malformed)
    case Some(t) =>
      if t.alg.Unregistered? then Err(UnavailableAlgorithm)
      else if !IsHmac(t.alg) then Err(UnexpectedSigningMethod)
      else if t.signature != Mac(secret, t.alg, t.claims) then Err(SignatureInvalid)
      else if !ClaimsValid(t.claims, now) then Err(ClaimsInvalid)
      else Ok(t.claims.subject)
  }

  /** ValidateJWT: decode the text, then apply the acceptance rule. */
  function ValidateJWT(secret: string, now: int, decode: string -> Option<Token>, tokenString: string): Result<string, TokenError> {
    ValidateToken(secret, now, decode(tokenString))
  }

  /** A token this service issued validates, with the user ID as subject, exactly while the clock
      is before issuance plus the configured expiration: up to the last instant, not after. */
  lemma {:induction false} IssuedTokenValidates(cfg: JwtConfig, userId: string, issuedClock: int, expiryClock: int, now: int)
    ensures var t := GenerateJWT(cfg, userId, issuedClock, expiryClock);
      && t.alg == HS256 && t.claims.subject == userId && t.claims.issuedAt == Some(issuedClock)
      && ValidateToken(cfg.secret, now, Some(t))
         == if now < expiryClock + cfg.expiration then Ok(userId) else Err(ClaimsInvalid)
  {
  }

  /** With both clock readings equal, the token lives exactly the configured expiration. */
  lemma {:induction false} LifetimeIsExpiration(cfg: JwtConfig, userId: string, at: int)
    ensures var c := GenerateJWT(cfg, userId, at, at).claims;
      c.expiresAt.value - c.issuedAt.value == cfg.expiration
  {
  }

  /** A token signed under any other key is refused, whatever its algorithm and claims. */
  lemma {:induction false} OtherKeyRejected(secret: string, other: string, alg: Alg, claims: Claims, now: int)
    requires other != secret
    ensures ValidateToken(secret, now, Some(Sign(other, alg, claims))).Err?
  {
  }

  /** A token whose method is not HMAC is refused even when its signature is genuine. */
  lemma {:induction false} NonHmacRejected(secret: string, alg: Alg, claims: Claims, now: int)
    requires !IsHmac(alg)
    ensures ValidateToken(secret, now, Some(Sign(secret, alg, claims))).Err?
  {
  }

  /** Relabelling a signed token's algorithm breaks its signature. */
  lemma {:induction false} RelabelledAlgorithmRejected(secret: string, t: Token, alg: Alg, now: int)
    requires t == Sign(secret, t.alg, t.claims) && alg != t.alg
    ensures ValidateToken(secret, now, Some(t.(alg := alg))) == (if alg.Unregistered? then Err(UnavailableAlgorithm)
      else if !IsHmac(alg) then Err(UnexpectedSigningMethod) else Err(SignatureInvalid))
  {
  }

  /** The key function admits every HMAC method, so an HS512 token under the secret is accepted too. */
  lemma {:induction false} AnyHmacAccepted(secret: string, claims: Claims, now: int)
    requires ClaimsValid(claims, now)
    ensures ValidateToken(secret, now, Some(Sign(secret, HS512, claims))) == Ok(claims.subject)
  {
  }
}
