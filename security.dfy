/**
 * SecurityMiddleware and TrustedProxyMiddleware: CORS headers for allowed origins,
 * the fixed browser-hardening headers on every response, short-circuiting of
 * preflight requests, and refusal of clients outside the trusted-proxy list.
 * In both lists the entry "*" matches everything.
 */
module Security {
  import opened Settings
  import opened HttpContext

  const OriginHeader := "Origin"
  const AllowOrigin := "Access-Control-Allow-Origin"
  const AllowCredentials := "Access-Control-Allow-Credentials"
  const AllowMethods := "Access-Control-Allow-Methods"
  const AllowHeaders := "Access-Control-Allow-Headers"
  const CorsMethods := "GET, POST, PUT, DELETE, OPTIONS, PATCH"
  const CorsHeaders := "Origin, Content-Type, Content-Length, Accept-Encoding, X-CSRF-Token, Authorization, X-Requested-With"

  /** The five hardening headers and their values. */
  const HardeningHeaders: map<string, string> := map[
    "X-Content-Type-Options" := "nosniff",
    "X-Frame-Options" := "DENY",
    "X-XSS-Protection" := "1; mode=block",
    "Referrer-Policy" := "strict-origin-when-cross-origin",
    "Permissions-Policy" := "geolocation=(), microphone=(), camera=()"]

  const StatusNoContent := 204
  const StatusForbidden := 403

  /** Entry `i` of `list` is the wildcard or `x` itself. */
  predicate MatchesAt(x: string, list: seq<string>, i: int) {
    0 <= i < |list| && (list[i] == "*" || list[i] == x)
  }

  /** Some entry of `list` admits `x`. */
  predicate Listed(x: string, list: seq<string>) {
    exists i | 0 <= i < |list| :: MatchesAt(x, list, i)
  }

  /** isAllowedOrigin: a non-empty origin that some entry admits. */
  method IsAllowedOrigin(origin: string, allowedOrigins: seq<string>) returns (allowed: bool)
    ensures allowed <==> origin != "" && Listed(origin, allowedOrigins)
  {
    if origin == "" {
      return false;
    }
    for i := 0 to |allowedOrigins|
      invariant forall j | 0 <= j < i :: !MatchesAt(origin, allowedOrigins, j)
    {
      if allowedOrigins[i] == "*" || allowedOrigins[i] == origin {
        assert MatchesAt(origin, allowedOrigins, i);
        return true;
      }
    }
    return false;
  }

  /** isTrustedProxy: some entry admits the client address (an empty address included). */
  method IsTrustedProxy(clientIP: string, trustedProxies: seq<string>) returns (trusted: bool)
    ensures trusted <==> Listed(clientIP, trustedProxies)
  {
    for i := 0 to |trustedProxies|
      invariant forall j | 0 <= j < i :: !MatchesAt(clientIP, trustedProxies, j)
    {
      if trustedProxies[i] == "*" || trustedProxies[i] == clientIP {
        assert MatchesAt(clientIP, trustedProxies, i);
        return true;
      }
    }
    return false;
  }

  /** The wildcard admits every address and every non-empty origin, wherever it stands in the list. */
  lemma {:induction false} WildcardAdmitsAll(x: string, list: seq<string>, i: int)
    requires 0 <= i < |list| && list[i] == "*"
    ensures Listed(x, list)
  {
    assert MatchesAt(x, list, i);
  }

  /** Without the wildcard, exactly the listed values are admitted. */
  lemma {:induction false} ExactListing(x: string, list: seq<string>)
    requires forall i | 0 <= i < |list| :: list[i] != "*"
    ensures Listed(x, list) <==> x in list
  {
    if x in list {
      var i :| 0 <= i < |list| && list[i] == x;
      assert MatchesAt(x, list, i);
    }
  }

  /** The response headers with the CORS headers set: the origin echoed back only when it is allowed,
      the other three always. */
  function WithCors(h: map<string, string>, origin: string, allowed: bool): map<string, string> {
    (if allowed then h[AllowOrigin := origin] else h)
      [AllowCredentials := "true"][AllowMethods := CorsMethods][AllowHeaders := CorsHeaders]
  }

  /** The response headers with the five hardening headers set. */
  function WithHardening(h: map<string, string>): map<string, string> {
    h["X-Content-Type-Options" := "nosniff"]
     ["X-Frame-Options" := "DENY"]
     ["X-XSS-Protection" := "1; mode=block"]
     ["Referrer-Policy" := "strict-origin-when-cross-origin"]
     ["Permissions-Policy" := "geolocation=(), microphone=(), camera=()"]
  }

  /** The response headers after the security handler, from those before it. */
  function SecuredHeaders(before: map<string, string>, security: SecurityConfig, origin: string): map<string, string> {
    WithHardening(
      if security.enableCors
      then WithCors(before, origin, origin != "" && Listed(origin, security.allowedOrigins))
      else before)
  }

  /** What the security handler promises about the response headers: the origin is echoed exactly when
      CORS is on and the origin is allowed, the other CORS headers whenever CORS is on, the hardening
      headers always, and nothing else changes. */
  lemma {:induction false} SecuredHeadersContents(before: map<string, string>, security: SecurityConfig, origin: string)
    ensures var after := SecuredHeaders(before, security, origin);
      && (forall k | k in HardeningHeaders :: k in after && after[k] == HardeningHeaders[k])
      && (security.enableCors && origin != "" && Listed(origin, security.allowedOrigins)
          ==> AllowOrigin in after && after[AllowOrigin] == origin)
      && (!(security.enableCors && origin != "" && Listed(origin, security.allowedOrigins))
          ==> (AllowOrigin in after <==> AllowOrigin in before)
              && (AllowOrigin in after ==> after[AllowOrigin] == before[AllowOrigin]))
      && (security.enableCors ==>
            && AllowCredentials in after && after[AllowCredentials] == "true"
            && AllowMethods in after && after[AllowMethods] == CorsMethods
            && AllowHeaders in after && after[AllowHeaders] == CorsHeaders)
      && (forall k | k in before && k !in HardeningHeaders && (security.enableCors ==> k !in CorsKeys) ::
            k in after && after[k] == before[k])
      && (forall k | k in after && k !in before :: k in HardeningHeaders || (security.enableCors && k in CorsKeys))
  {
  }

  const CorsKeys: set<string> := {AllowOrigin, AllowCredentials, AllowMethods, AllowHeaders}

  method SetCorsHeaders(c: Context, origin: string, allowed: bool)
    requires allowed ==> origin != ""
    modifies c
    ensures c.header == WithCors(old(c.header), origin, allowed)
    ensures c.status == old(c.status) && c.body == old(c.body) && c.keys == old(c.keys)
    ensures c.aborted == old(c.aborted) && c.passed == old(c.passed)
  {
    if allowed {
      c.Header(AllowOrigin, origin);
    }
    c.Header(AllowCredentials, "true");
    c.Header(AllowMethods, CorsMethods);
    c.Header(AllowHeaders, CorsHeaders);
  }

  method SetHardeningHeaders(c: Context)
    modifies c
    ensures c.header == WithHardening(old(c.header))
    ensures c.status == old(c.status) && c.body == old(c.body) && c.keys == old(c.keys)
    ensures c.aborted == old(c.aborted) && c.passed == old(c.passed)
  {
    c.Header("X-Content-Type-Options", "nosniff");
    c.Header("X-Frame-Options", "DENY");
    c.Header("X-XSS-Protection", "1; mode=block");
    c.Header("Referrer-Policy", "strict-origin-when-cross-origin");
    c.Header("Permissions-Policy", "geolocation=(), microphone=(), camera=()");
  }

  method HandleSecurity(c: Context, security: SecurityConfig)
    requires !c.aborted && !c.passed
    modifies c
    ensures c.header == SecuredHeaders(old(c.header), security, c.GetHeader(OriginHeader))
    ensures c.verb == "OPTIONS" ==> c.aborted && !c.passed && c.status == StatusNoContent
    ensures c.verb != "OPTIONS" ==> c.passed && !c.aborted && c.status == old(c.status)
    ensures c.body == old(c.body) && c.keys == old(c.keys)
  {
    if security.enableCors {
      var origin := c.GetHeader(OriginHeader);
      var allowed := IsAllowedOrigin(origin, security.allowedOrigins);
      SetCorsHeaders(c, origin, allowed);
    }
    SetHardeningHeaders(c);
    if c.verb == "OPTIONS" {
      c.AbortWithStatus(StatusNoContent);
      return;
    }
    c.Next();
  }

  method HandleTrustedProxy(c: Context, security: SecurityConfig)
    requires !c.aborted && !c.passed
    modifies c
    ensures Listed(c.clientIP, security.trustedProxies) ==>
      c.passed && !c.aborted && c.status == old(c.status) && c.body == old(c.body)
    ensures !Listed(c.clientIP, security.trustedProxies) ==>
      && c.aborted && !c.passed && c.status == StatusForbidden
      && c.body == ErrorBody("forbidden", "Access denied from untrusted source")
    ensures c.header == old(c.header) && c.keys == old(c.keys)
  {
    var trusted := IsTrustedProxy(c.clientIP, security.trustedProxies);
    if !trusted {
      c.JSON(StatusForbidden, ErrorBody("forbidden", "Access denied from untrusted source"));
      c.Abort();
      return;
    }
    c.Next();
  }
}
