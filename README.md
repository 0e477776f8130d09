# otp-auth-backend, modelled in Dafny

The modelled system is a phone-number login backend. A client asks for a one-time code for a phone. The service counts the request against a per-phone limit in Redis, then draws a 6-digit code and stores it under `otp:<phone>` with a TTL. When the client presents the code, the service compares it with the stored one, deletes it on a match, finds the user with that phone or registers a new one, and returns an HS256 JSON Web Token whose subject is the user's ID.

Around this sit the HTTP middleware:
- a bearer-token gate;
- a per-client in-process rate limiter;
- CORS and hardening headers;
- a trusted-proxy filter.

There is also the users table with its paginated listing.

The project has one Dafny module per component:

| file | module | models |
|---|---|---|
| `kv_store.dfy` | `KeyValueStore` | Redis commands (SET with TTL, EXPIRE, INCR, GET, DEL) on a map of expiring entries over a logical clock; class `RedisStore` |
| `otp_code.dfy`, `decimal.dfy` | `OtpCode`, `Decimal` | `GenerateOTP` and `%06d` formatting |
| `otp_service.dfy` | `OtpService` | `RequestOTP` and `VerifyOTP`, specified by the functions `Issue` and `Verify`; class `OTPService` |
| `jwt.dfy` | `Jwt` | `generateJWT` claims and the `ValidateJWT` acceptance rule of the JWT library |
| `auth_service.dfy` | `AuthService` | `VerifyOTP`: find-or-create by phone, then a token; specified by `Login` |
| `user_model.dfy` | `UserModel` | `NewUser`, `ToResponse` |
| `user_repository.dfy` | `UserRepository` | users table (primary key, unique phone, VARCHAR(20)); `Create`, `GetByPhone`, `GetByID`, `List` with its SQL text |
| `user_service.dfy` | `UserService` | `GetUserByID`, `ListUsers` |
| `http_context.dfy` | `HttpContext` | the part of the web framework's request context the middleware reads and writes |
| `auth_middleware.dfy` | `AuthMiddleware` | `AuthMiddleware` |
| `rate_limit.dfy` | `RateLimit` | `RateLimiter`, `getLimiter`, `cleanup`, `RateLimitMiddleware` |
| `security.dfy` | `Security` | `SecurityMiddleware`, `isAllowedOrigin`, `TrustedProxyMiddleware`, `isTrustedProxy` |
| `settings.dfy`, `string_ops.dfy`, `wrappers.dfy` | | configuration records, the Go `strings` helpers used, `Option`/`Result` |

How the model treats the system's boundaries:
- **Store outages.** Redis and database round trips that can fail take a `fault` flag, so every error path is modelled.
- **Time.** Clocks are integer parameters, counted in seconds.
- **Random draws.** The random draw is a parameter of type `Draw`.
- **New users.** The new user's UUID is a parameter.
- **Token library.** The token library's parsing of the compact JWS text is a parameter `decode`.
- **Signatures.** Signatures are an ideal MAC `Mac(key, alg, claims)`: a signature matches only when the key, the algorithm and the claims all match.
- **Pipelines.** A failed pipeline leaves the store unchanged.

One might expect such a service to count a phone's requests in fixed windows that start at its first request, to accept tokens only with the algorithm that issued them, to honour the configured code length and retry limit, and to report a store outage as an outage. In four places the code does otherwise, and the model follows the code:
- **Rate-limit TTL.** The rate-limit counter gets a fresh TTL of one window on every increment, refused requests included. A phone that keeps asking therefore stays refused until a whole window passes with no request (`RefusedRequestRestartsWindow`). It is not refused only until the window that began with its first request ends.
- **Token algorithm.** Token validation accepts a token signed with any HMAC algorithm (HS256, HS384, HS512) under the secret (`AnyHmacAccepted`). It does not require the HS256 that issuance uses. A token relabelled to a different algorithm still fails its signature check (`RelabelledAlgorithmRejected`).
- **Unused settings.** The code length is fixed at 6. The configured OTP length and max-retries settings are never read.
- **Store errors.** A store failure while reading the code is reported the same way as a missing code, "not found or expired" (`OtpNotFound(cause)`, with `cause` telling them apart in the model).

## Model

| member | source | states |
|---|---|---|
| `Decimal.FormatPaddedFits` | service/otp_service.go:37 | `%0Nd` of a number below 10^N is exactly N digits and reads back as that number |
| `OtpCode.FormatOtp` | service/otp_service.go:36-37 | the code is six decimal digits, zero-padded, denoting the drawn number |
| `OtpCode.GenerateOTP` | service/otp_service.go:28-39 | an error exactly when the random source fails; otherwise a 6-digit code whose value is the draw |
| `OtpCode.FormatOtpInjective` | service/otp_service.go:30-37 | distinct draws below 10^6 give distinct codes, so all 10^6 codes occur |
| `OtpCode.LeadingZerosKept` | service/otp_service.go:36-37 | leading zeros are kept: 4213 becomes "004213" |
| `KeyValueStore.ExpiryIsPermanent` | store/redis.go:58-61 | a read sees the same value at every earlier instant, and a key that has expired stays unreadable later |
| `KeyValueStore.Set` | store/redis.go:51 | SET writes the value at its key and changes no other key |
| `KeyValueStore.Expire` | store/redis.go:52 | EXPIRE on a missing or expired key changes nothing; with a TTL of 0 or less it deletes the key; otherwise it keeps the value and sets the deadline to now plus the TTL; no other key changes |
| `KeyValueStore.Del` | store/redis.go:65 | DEL removes its key and nothing else |
| `KeyValueStore.Incr` | store/redis.go:73 | INCR makes the live value one more than before (0 when absent or expired), touching no other key |
| `KeyValueStore.NamespacesDisjoint` | store/redis.go:47 | an `otp:` key never equals a `rate_limit:` key |
| `KeyValueStore.KeysInjective` | store/redis.go:69 | distinct phones have distinct keys in each namespace |
| `KeyValueStore.SetOtpThenGet` | store/redis.go:46-56 | after SetOTP with a positive TTL, reads before the deadline return the new code whatever was stored before; with a TTL of 0 or less the code is gone at once |
| `KeyValueStore.SetOtpFrame` | store/redis.go:46-56 | SetOTP changes no count and no other phone's code |
| `KeyValueStore.SetOtpWellTyped` | store/redis.go:46-56 | SetOTP keeps counters and codes in their own namespaces |
| `KeyValueStore.IncrementCounts` | store/redis.go:68-82 | IncrementRateLimit yields the previous live count plus one, and the key's TTL is exactly one window after every call; a window of 0 or less deletes the key |
| `KeyValueStore.IncrementFrame` | store/redis.go:68-82 | IncrementRateLimit changes no stored code and no other phone's count |
| `KeyValueStore.DeleteOtpFrame` | store/redis.go:63-66 | DeleteOTP removes the phone's code and nothing else |
| `KeyValueStore.ExpiresAfterTtl` | store/redis.go:51-52 | a code is unreadable once the clock reaches its deadline |
| `KeyValueStore.RedisStore.SetOTP` | store/redis.go:46-56 | the pipeline's effect or, on failure, an error and no change |
| `KeyValueStore.RedisStore.GetOTP` | store/redis.go:58-61 | the live code of the phone, `KeyMissing` when there is none, `Unavailable` on failure |
| `KeyValueStore.RedisStore.DeleteOTP` | store/redis.go:63-66 | the key is removed; a missing key is not an error |
| `KeyValueStore.RedisStore.IncrementRateLimit` | store/redis.go:68-82 | the new count and the incremented store, or 0 and an error with no change |
| `OtpService.IssueCounts` | service/otp_service.go:41-46 | every request that reaches the store is counted, whatever happens after; other phones' counts are unchanged |
| `OtpService.IssueRefusedOverLimit` | service/otp_service.go:48-54 | a count above the maximum is refused with phone, maximum and window; nothing is logged and no code changes |
| `OtpService.RefusedRequestRestartsWindow` | service/otp_service.go:43-54 | a refused request still counts and restarts the window, so the phone stays over the limit for one more full window |
| `OtpService.IssueSucceeds` | service/otp_service.go:41-75 | success exactly when the counter is reachable, the count is within the maximum, the draw works and the store works; the new code then replaces the old one until the OTP expiration and is logged, and other phones' codes are unchanged |
| `OtpService.IssueFailureAfterCount` | service/otp_service.go:56-66 | a failed draw or store is an error with nothing logged, but the request stays counted and the previous code stays in place |
| `OtpService.VerifySucceedsIffMatch` | service/otp_service.go:77-96 | verification succeeds exactly when the stored live code equals the candidate, and returns it; no code gives not-found |
| `OtpService.RetryAfterMismatch` | service/otp_service.go:85-87 | a wrong code is refused and consumes nothing: the right code still verifies |
| `OtpService.SingleUse` | service/otp_service.go:89-95 | after a successful verification the code is gone: a second attempt is not-found; counts and other phones' codes are unchanged |
| `OtpService.DeleteFailureStillSucceeds` | service/otp_service.go:89-95 | a failed delete does not change the result of verification; the code then stays stored |
| `OtpService.OTPService.RequestOTP` | service/otp_service.go:41-75 | the result, the store afterwards and the logged code are those of `Issue` on the store before |
| `OtpService.OTPService.VerifyOTP` | service/otp_service.go:77-96 | the result and the store afterwards are those of `Verify` on the store before |
| `OtpService.RequestRestartsWindow` | service/otp_service.go:43 | any request that reaches the store, served or refused, leaves the count at the previous count plus one for a whole window after it |
| `OtpService.ServeBudget` | service/otp_service.go:41-75 | on an empty store, maxRequests requests spaced less than a window apart are all served, and the count stays at the budget until the next spaced request |
| `OtpService.ThrottleWithinWindow` | service/otp_service.go:41-54 | on a fresh store, with requests spaced `gap` (less than a window) apart, the first maxRequests succeed and the next, at start + maxRequests·gap, is refused however long the run has lasted; after a whole quiet window a request succeeds again |
| `OtpService.SingleUseLifecycle` | service/otp_service.go:77-96 | a wrong code is refused, the right one is accepted once, its replay is not found, and a code left past its expiration is not found |
| `UserModel.NewUserFields` | models/user.go:46-55 | a new user has the given phone and ID, and one instant for registration, creation and update |
| `UserModel.ToResponseCopies` | models/user.go:57-63 | the projection copies ID, phone and registration instant |
| `UserModel.NewUserResponse` | models/user.go:46-63 | projecting a new user shows its ID, phone and creation instant |
| `UserRepository.NormalizePage` | store/user_repository.go:118-120 | a page below 1 becomes 1, and a page of 1 or more is kept |
| `UserRepository.NormalizeLimit` | store/user_repository.go:121-126 | the limit lies in 1..100: 10 below 1, 100 above 100, unchanged otherwise |
| `UserRepository.NormalizeIdempotent` | service/user_service.go:37-45 | clamping twice equals clamping once, so the repository's clamp finds nothing left after the service's |
| `UserRepository.Offset` | store/user_repository.go:128 | the offset is non-negative and skips exactly the earlier pages |
| `UserRepository.TotalPagesIsCeiling` | store/user_repository.go:129 | the page count is the ceiling of total / limit: enough pages for every row, no empty last page, 0 pages for 0 rows |
| `UserRepository.SearchFilter` | store/user_repository.go:92-96 | a `WHERE phone ILIKE $1` filter with argument `%q%` exactly when the search is non-empty |
| `UserRepository.OrderClause` | store/user_repository.go:99-107 | ascending exactly when the sort text contains both `registered_at` and `asc`, descending otherwise |
| `UserRepository.PageStatement` | store/user_repository.go:132-135 | the page query takes the filter's arguments followed by limit and offset |
| `UserRepository.PlaceholdersMatchArgs` | store/user_repository.go:90-135 | the LIMIT and OFFSET placeholders are the last two positions of the argument list |
| `UserRepository.ProjectAt` | store/user_repository.go:144-152 | the listing's i-th entry is the projection of the i-th fetched row |
| `UserRepository.ScanRows` | store/user_repository.go:144-152 | the scan loop projects every fetched row, in order |
| `UserRepository.InsertError` | store/user_repository.go:20-34 | an insert fails on a database failure, a phone over 20 characters, or a taken ID or phone, and succeeds otherwise (the constraints declared at store/database.go:56-58) |
| `UserRepository.InsertKeepsConstraints` | store/database.go:56-58 | a successful insert adds exactly one row and keeps IDs unique and phones unique |
| `UserRepository.UserRepository.Create` | store/user_repository.go:20-34 | the error is `InsertError`; the row is added exactly when there is none |
| `UserRepository.UserRepository.GetByPhone` | store/user_repository.go:36-56 | the row with that phone, no user (not an error) when there is none, or an error on failure |
| `UserRepository.UserRepository.GetByID` | store/user_repository.go:58-78 | the row with that ID, no user (not an error) when there is none, or an error on failure |
| `UserRepository.UserRepository.List` | store/user_repository.go:80-167 | the count statement, then clamping of the query in place, then the page statement; each failing step's error; on success the projected rows with page, limit, total and ceiling page count |
| `UserService.UserService.GetUserByID` | service/user_service.go:21-33 | an error on failure, "user not found" exactly when no row has the ID, otherwise the row's projection |
| `UserService.UserService.ListUsers` | service/user_service.go:35-53 | the query is clamped in place, then listed; list errors are wrapped |
| `Jwt.ValidateToken` | service/auth_service.go:80-103 | a token is accepted exactly when it parses, its algorithm is an HMAC, its signature is the MAC under the secret, and it has not expired and is not before its nbf; the result is its subject |
| `Jwt.IssuedTokenValidates` | service/auth_service.go:69-78 | an issued token is HS256 with the user ID as subject and the first clock reading as iat, and validates exactly while the clock is before the second reading plus the expiration |
| `Jwt.LifetimeIsExpiration` | service/auth_service.go:72-73 | with equal clock readings, a token lives exactly the configured expiration |
| `Jwt.OtherKeyRejected` | service/auth_service.go:81-87 | a token signed with a key other than the secret is refused, under the ideal MAC (real HMAC treats some distinct keys as the same) |
| `Jwt.NonHmacRejected` | service/auth_service.go:83-85 | a token whose algorithm is not an HMAC is refused even when its signature is good |
| `Jwt.RelabelledAlgorithmRejected` | service/auth_service.go:81-91 | an issued token with its algorithm field changed is refused: unverifiable if the algorithm is unknown, wrong method if it is not an HMAC, bad signature otherwise |
| `Jwt.AnyHmacAccepted` | service/auth_service.go:83-86 | a token signed under the secret with HS512 is accepted although tokens are issued with HS256 |
| `AuthService.OtpFailureStopsLogin` | service/auth_service.go:30-34 | a failed code check is returned wrapped and the users table is untouched |
| `AuthService.FirstLoginRegisters` | service/auth_service.go:36-66 | for an unknown phone, success exactly when lookup and insert work, the phone fits and the ID is new; then exactly one user is added and the token's subject is its ID; on failure nothing is added |
| `AuthService.ReturningUserReused` | service/auth_service.go:44-66 | a known phone reuses its user: no row is added, and the token's subject is that user's ID |
| `AuthService.RepeatLoginSameId` | service/auth_service.go:29-67 | two logins with one phone give one new row and the same user ID and token subject both times |
| `AuthService.AuthService.VerifyOTP` | service/auth_service.go:29-67 | the OTP store ends as `Verify` leaves it, and the result and users table are those of `Login` on the verification's outcome |
| `AuthService.LoginWithFreshCode` | service/auth_service.go:29-34 | requesting a code and presenting it at once counts one request and passes the code check, so the login proceeds as `Login` with the check passed |
| `AuthService.RepeatLoginSameUser` | service/auth_service.go:29-67 | end to end on fresh stores: request, verify, request, verify for one phone gives one registered user, and both tokens carry its ID |
| `AuthMiddleware.Authorize` | middleware/auth.go:15-55 | missing token exactly for an empty header; format error exactly when "Bearer " (case-sensitive) does not start it; missing token exactly for "Bearer " alone; otherwise the token after the prefix decides, and its subject is the user |
| `AuthMiddleware.RejectionBody` | middleware/auth.go:16-54 | both empty cases are `missing_token`, a header without the Bearer prefix `invalid_token_format`, validation failures `invalid_token` |
| `AuthMiddleware.Handle` | middleware/auth.go:13-61 | a rejection aborts with 401 and its body; an accepted token stores the user ID under `user_id` and continues |
| `AuthMiddleware.IssuedTokenAdmitted` | middleware/auth.go:36-59 | "Bearer " followed by an issued token admits its user until the token expires |
| `AuthMiddleware.ExpiredTokenRefused` | middleware/auth.go:47-55 | the same header at or after expiry is refused as an invalid token |
| `AuthMiddleware.SchemeIsCaseSensitive` | middleware/auth.go:26-33 | "bearer " in lower case is a format error |
| `RateLimit.Cleaned` | middleware/rate_limit.go:46-54 | after cleanup the table holds at most 10000 clients; it is emptied exactly when it held more than that, otherwise unchanged |
| `RateLimit.CleanupIdempotent` | middleware/rate_limit.go:46-54 | a second cleanup changes nothing |
| `RateLimit.RateLimiter.constructor` | middleware/rate_limit.go:23-29 | an empty table with the given rate and burst |
| `RateLimit.RateLimiter.GetLimiter` | middleware/rate_limit.go:32-43 | a known client gets its stored limiter and the table is unchanged; a new one gets a fresh limiter with the table's rate and burst, which is stored |
| `RateLimit.RateLimiter.Cleanup` | middleware/rate_limit.go:46-54 | the table becomes `Cleaned` of the old one |
| `RateLimit.RequestsPerSecond` | middleware/rate_limit.go:65 | the rate times the window is the request budget |
| `RateLimit.RateLimitMiddleware` | middleware/rate_limit.go:57-69 | a pass-through exactly when rate limiting is disabled; otherwise a fresh empty table with rate maxRequests/window and burst maxRequests |
| `RateLimit.ExceededBody` | middleware/rate_limit.go:85-91 | `rate_limit_exceeded` with retry_after one window from now and the request budget as limit |
| `RateLimit.Handle` | middleware/rate_limit.go:80-97 | disabled: continue; enabled: a known client's limiter table is unchanged, a new client gets a fresh limiter and every other client keeps its own, and a refusal aborts with 429 and that body while an admission continues |
| `RateLimit.LimitersPerClient` | middleware/rate_limit.go:32-43 | two requests from one client share a limiter; two clients get two |
| `Security.IsAllowedOrigin` | middleware/security.go:44-55 | true exactly when the origin is non-empty and some entry is "*" or equals it |
| `Security.IsTrustedProxy` | middleware/security.go:74-81 | true exactly when some entry is "*" or equals the client address |
| `Security.WildcardAdmitsAll` | middleware/security.go:48 | a "*" anywhere in the list admits every value |
| `Security.ExactListing` | middleware/security.go:74-81 | with no "*", exactly the listed values are admitted |
| `Security.SecuredHeadersContents` | middleware/security.go:15-31 | the origin is echoed only when CORS is on and it is allowed; the other CORS headers whenever CORS is on; the five hardening headers always; no other header changes |
| `Security.SetCorsHeaders` | middleware/security.go:15-24 | the response headers gain the CORS headers |
| `Security.SetHardeningHeaders` | middleware/security.go:26-31 | the response headers gain the five hardening headers |
| `Security.HandleSecurity` | middleware/security.go:12-41 | the response headers become `SecuredHeaders` of the old ones; OPTIONS aborts with 204 and everything else continues |
| `Security.HandleTrustedProxy` | middleware/security.go:58-71 | an untrusted client is aborted with 403 and the `forbidden` body; a trusted one continues |

## Left out

- **Concurrency.**
  - The model has no interleaving: there are no goroutines and no locks (the rate limiter's mutex is not modelled).
  - The replay race is not modelled. Verify-then-delete is not atomic, so two concurrent verifications with the same code could both succeed.
  - The five-minute cleanup ticker is not modelled; `Cleanup` is a method that can be called at any time.
- **Pipelines.** A Redis pipeline is taken to succeed or fail as a whole. A partially applied pipeline, for example INCR done but EXPIRE lost, is not modelled.
- **`KeyValueStore.RedisStore.SetOTP`.** Only whole-second TTLs are modelled. go-redis rounding of sub-second durations and its special `KeepTTL` value are not.
- **Logging.** Log output is not modelled beyond the issued code (`logged`), and the warning for a failed delete is not modelled.
- **Random source.** The draw is an input. Its uniformity is a property of the operating system's random source and is not proved.
- **Users table.**
  - SQL execution is not modelled. The matching semantics of `ILIKE` are not modelled.
  - The COUNT result and the page's rows are inputs of `List`.
  - A scan error and a row-iteration error are one failure (`ScanFailed`).
  - The difference between an empty JSON list and `null` for an empty page is not modelled.
- `UserRepository.UserRepository.GetByID`: IDs are compared as exact strings. PostgreSQL parses `$1` as a UUID, so an upper-case, braced or hyphen-less spelling of an existing ID finds its row there but is "no user" here, and a malformed UUID is an invalid-input error there but "no user" here. Time values are integers.
- `UserService.UserService.GetUserByID`: inherits the gap of `GetByID`; an existing user asked for under another spelling of its UUID is "user not found" here.
- `UserRepository.InsertError`: PostgreSQL does not refuse a value longer than VARCHAR(20) when the excess is all spaces; it truncates the value and inserts it. Here such a phone is refused as `ValueTooLong`, so its first login fails instead of registering a user whose stored phone is shortened.
- **Integer widths.**
  - int64 overflow of the offset, the page count and INCR is not modelled: integers are unbounded.
  - `RateLimit.RequestsPerSecond`: a float64 rate is modelled as an exact rational. A non-positive window is not modelled for the rate.
- `RateLimit.RateLimitMiddleware`: a non-positive window with rate limiting enabled is excluded by its requires. Go's duration parser accepts such a value, for example `-1m`, and the float rate is then infinite, NaN or negative.
- `Jwt.OtherKeyRejected`: holds under the ideal MAC only. Real HMAC gives the same signature for a key and that key followed by zero bytes, and for a key longer than the hash block and its hash.
- **Token bucket.** The refill arithmetic belongs to the rate-limiting library and is not modelled. Each `Allow()` decision is an input of `RateLimit.Handle`.
- **JWT.**
  - The compact serialization (base64url, JSON) and HMAC cryptography are not modelled: parsing is the `decode` parameter, and the signature is an ideal MAC.
  - The unreachable error branch of `SignedString` with an HMAC key is not modelled.
  - `AuthMiddleware.RejectionBody`: the library's wording after the error class ("token has invalid claims: token is expired", and so on) is approximated by the class alone.
- **Message texts.**
  - The wrapped error strings of the services are error constructors, not text.
  - `RateLimitExceededError.Error()`, which uses Go's duration formatting, is not modelled.
  - The `window` field of the 429 body is the window in seconds, not Go's duration text such as "1m0s".
- **HTTP headers.** Header names are matched as written: Go's canonicalisation of header keys is not modelled.
- **`RateLimit.Handle`.** The client address comes as the framework resolves it from the request and proxy headers; that resolution is not modelled.
- **Outside this model.** Configuration loading, the HTTP handlers, route setup, database migration and health checks are not part of this model.
