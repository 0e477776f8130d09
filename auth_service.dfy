/**
 * AuthService.VerifyOTP: consume the one-time code, find or register the user by
 * phone, and issue a session token for the user's ID.
 *
 * `Login` specifies what happens after the code check, as a function of its outcome
 * and the users table; the method performs the same calls and is proved to match it.
 */
module AuthService {
  import opened Wrappers
  import opened Settings
  import opened OtpCode
  import opened KeyValueStore
  import opened OtpService
  import opened UserModel
  import opened UserRepository
  import opened Jwt

  const AuthenticatedMessage: string := "Authentication successful"

  /** The response carries the signed token (its compact text form is not modelled) and the user's projection. */
  datatype VerifyOtpResponse = VerifyOtpResponse(message: string, accessToken: Token, user: UserResponse)

  datatype AuthError =
    | OtpVerificationFailed(otp: OtpError)   // "OTP verification failed: ..."
    | UserLookupFailed(cause: RepoError)     // "failed to check existing user: ..."
    | UserCreateFailed(cause: RepoError)     // "failed to create user: ..."

  /** Which round trips of one login fail. */
  datatype LoginFaults = LoginFaults(otp: VerifyFaults, lookup: bool, create: bool)

  const NoLoginFaults := LoginFaults(NoVerifyFaults, false, false)

  /** The clock readings of one login: the new user's timestamps, the token's issued-at and the
      reading its expiry is computed from. */
  datatype Instants = Instants(created: int, issued: int, expiryBase: int)

  /** The response for a resolved user. */
  function LoginResponse(jwt: JwtConfig, u: User, at: Instants): VerifyOtpResponse {
    VerifyOtpResponse(AuthenticatedMessage, GenerateJWT(jwt, u.id, at.issued, at.expiryBase), ToResponse(u))
  }

  /** The row holding `phone`; there is at most one, the phone column being unique. */
  ghost function UserWithPhone(rows: Table, phone: string): (u: User)
    requires HasPhone(rows, phone)
    ensures u in rows.Values && u.phone == phone
  {
    var id :| id in rows && rows[id].phone == phone;
    rows[id]
  }

  /** One login after the code check: its result and the users table afterwards. */
  datatype LoginStep = LoginStep(result: Result<VerifyOtpResponse, AuthError>, rows: Table)

  ghost function Login(jwt: JwtConfig, rows: Table, verified: Result<string, OtpError>, phone: string,
                       faults: LoginFaults, newId: string, at: Instants): LoginStep
  {
    if verified.Err? then LoginStep(Err(OtpVerificationFailed(verified.error)), rows)
    else if faults.lookup then LoginStep(Err(UserLookupFailed(RepoError.Unavailable)), rows)
    else if HasPhone(rows, phone) then LoginStep(Ok(LoginResponse(jwt, UserWithPhone(rows, phone), at)), rows)
    else
      var created := NewUser(phone, newId, at.created);
      match InsertError(rows, created, faults.create)
      case Some(e) => LoginStep(Err(UserCreateFailed(e)), rows)
      case None => LoginStep(Ok(LoginResponse(jwt, created, at)), rows[newId := created])
  }

  /** A failed code check is returned wrapped and the users table is neither read nor written. */
  lemma {:induction false} OtpFailureStopsLogin(jwt: JwtConfig, rows: Table, e: OtpError, phone: string,
                                                faults: LoginFaults, newId: string, at: Instants)
    ensures Login(jwt, rows, Err(e), phone, faults, newId, at) == LoginStep(Err(OtpVerificationFailed(e)), rows)
  {
  }

  /** A phone nobody has registers exactly one new user with that phone, and the token's subject is its ID;
      a failed lookup or insert gives an error, no token and no new row. */
  lemma {:induction false} FirstLoginRegisters(jwt: JwtConfig, rows: Table, code: string, phone: string,
                                               faults: LoginFaults, newId: string, at: Instants)
    requires WellFormed(rows) && !HasPhone(rows, phone)
    ensures var s := Login(jwt, rows, Ok(code), phone, faults, newId, at);
      && (s.result.Ok? <==>
            !faults.lookup && !faults.create && |phone| <= PhoneMaxLength && newId !in rows)
      && (s.result.Ok? ==>
            && s.rows == rows[newId := NewUser(phone, newId, at.created)]
            && |s.rows| == |rows| + 1 && WellFormed(s.rows)
            && s.result.value.user == UserResponse(newId, phone, at.created)
            && s.result.value.accessToken.claims.subject == newId)
      && (s.result.Err? ==> s.rows == rows)
  {
    var created := NewUser(phone, newId, at.created);
    if !faults.lookup && InsertError(rows, created, faults.create).None? {
      InsertKeepsConstraints(rows, created, faults.create);
    }
  }

  /** A phone that is registered reuses its user unchanged: no row is added and the token's subject is its ID. */
  lemma {:induction false} ReturningUserReused(jwt: JwtConfig, rows: Table, code: string, phone: string,
                                               faults: LoginFaults, newId: string, at: Instants, id: string)
    requires WellFormed(rows) && id in rows && rows[id].phone == phone && !faults.lookup
    ensures var s := Login(jwt, rows, Ok(code), phone, faults, newId, at);
      && s.rows == rows
      && s.result == Ok(LoginResponse(jwt, rows[id], at))
      && s.result.value.accessToken.claims.subject == id
  {
    var u := UserWithPhone(rows, phone);
    assert u.id in rows && rows[u.id] == u;
  }

  /** Logging in twice with one phone yields one user and the same subject both times. */
  lemma {:induction false} RepeatLoginSameId(jwt: JwtConfig, rows: Table, c1: string, c2: string, phone: string,
                                             id1: string, id2: string, at1: Instants, at2: Instants)
    requires WellFormed(rows) && !HasPhone(rows, phone) && |phone| <= PhoneMaxLength && id1 !in rows
    ensures var s1 := Login(jwt, rows, Ok(c1), phone, NoLoginFaults, id1, at1);
      var s2 := Login(jwt, s1.rows, Ok(c2), phone, NoLoginFaults, id2, at2);
      && s1.result.Ok? && s2.result.Ok?
      && s2.rows == s1.rows && |s2.rows| == |rows| + 1
      && s1.result.value.user.id == s2.result.value.user.id == id1
      && s1.result.value.accessToken.claims.subject == s2.result.value.accessToken.claims.subject == id1
  {
    FirstLoginRegisters(jwt, rows, c1, phone, NoLoginFaults, id1, at1);
    var s1 := Login(jwt, rows, Ok(c1), phone, NoLoginFaults, id1, at1);
    assert s1.rows[id1].phone == phone;
    ReturningUserReused(jwt, s1.rows, c2, phone, NoLoginFaults, id2, at2, id1);
  }

  class AuthService {
    const otpService: OTPService
    const users: UserRepository
    const jwt: JwtConfig

    constructor (otpService: OTPService, users: UserRepository, jwt: JwtConfig)
      ensures this.otpService == otpService && this.users == users && this.jwt == jwt
    {
      this.otpService := otpService;
      this.users := users;
      this.jwt := jwt;
    }

    method VerifyOTP(phone: string, otp: string, faults: LoginFaults, newId: string, at: Instants)
      returns (r: Result<VerifyOtpResponse, AuthError>)
      requires otpService.store.Valid() && users.Valid()
      modifies otpService.store, users
      ensures otpService.store.Valid() && users.Valid() && otpService.store.now == old(otpService.store.now)
      ensures var v := Verify(old(otpService.store.entries), otpService.store.now, phone, otp, faults.otp);
        && otpService.store.entries == v.entries
        && LoginStep(r, users.rows) == Login(jwt, old(users.rows), v.result, phone, faults, newId, at)
    {
      var verified := otpService.VerifyOTP(phone, otp, faults.otp);
      if verified.Err? {
        return Err(OtpVerificationFailed(verified.error));
      }
      var existing := users.GetByPhone(phone, faults.lookup);
      if existing.Err? {
        return Err(UserLookupFailed(existing.error));
      }
      var user: User;
      if existing.value.None? {
        user := NewUser(phone, newId, at.created);
        var err := users.Create(user, faults.create);
        if err.Some? {
          return Err(UserCreateFailed(err.value));
        }
      } else {
        user := existing.value.value;
        assert user == UserWithPhone(old(users.rows), phone);
      }
      var token := GenerateJWT(jwt, user.id, at.issued, at.expiryBase);
      r := Ok(VerifyOtpResponse(AuthenticatedMessage, token, ToResponse(user)));
    }
  }

  /** A client asks for a code and presents it at once: the request is counted, and the login
      goes ahead with the code check passed. */
  method LoginWithFreshCode(auth: AuthService, phone: string, n: nat, newId: string, at: Instants)
    returns (r: Result<VerifyOtpResponse, AuthError>)
    requires auth.otpService.store.Valid() && auth.users.Valid() && n < CodeSpace
    requires auth.otpService.limitConfig.window > 0 && auth.otpService.otpConfig.expiration > 0
    requires RequestCount(auth.otpService.store.entries, auth.otpService.store.now, phone) + 1
             <= auth.otpService.limitConfig.maxRequests
    modifies auth.otpService.store, auth.users
    ensures auth.otpService.store.Valid() && auth.users.Valid()
    ensures auth.otpService.store.now == old(auth.otpService.store.now)
    ensures RequestCount(auth.otpService.store.entries, auth.otpService.store.now, phone)
         == old(RequestCount(auth.otpService.store.entries, auth.otpService.store.now, phone)) + 1
    ensures LoginStep(r, auth.users.rows)
         == Login(auth.jwt, old(auth.users.rows), Ok(FormatOtp(n)), phone, NoLoginFaults, newId, at)
  {
    var store := auth.otpService.store;
    var otp, limit := auth.otpService.otpConfig, auth.otpService.limitConfig;
    ghost var m0 := store.entries;
    var issued, logged := auth.otpService.RequestOTP(phone, Drawn(n), NoIssueFaults);
    IssueSucceeds(m0, store.now, phone, Drawn(n), NoIssueFaults, otp, limit, phone, store.now);
    IssueCounts(m0, store.now, phone, Drawn(n), NoIssueFaults, otp, limit, phone);
    ghost var m1 := store.entries;
    SingleUse(m1, store.now, phone, FormatOtp(n), store.now, FormatOtp(n), phone);
    r := auth.VerifyOTP(phone, FormatOtp(n), NoLoginFaults, newId, at);
  }

  /** End to end: two logins for one phone, each with a freshly issued code, resolve to the same
      user; the first registers it, the second reuses it, and both tokens carry its ID. */
  method RepeatLoginSameUser(phone: string, otp: OtpConfig, limit: RateLimitConfig, jwt: JwtConfig,
                             n1: nat, n2: nat, id1: string, id2: string, at: Instants)
    returns (first: Result<VerifyOtpResponse, AuthError>, second: Result<VerifyOtpResponse, AuthError>,
             registered: set<string>)
    requires n1 < CodeSpace && n2 < CodeSpace
    requires limit.maxRequests >= 2 && limit.window > 0 && otp.expiration > 0
    requires |phone| <= PhoneMaxLength
    ensures first.Ok? && second.Ok?
    ensures first.value.user == UserResponse(id1, phone, at.created)
    ensures second.value.user == first.value.user
    ensures first.value.accessToken.claims.subject == second.value.accessToken.claims.subject == id1
    ensures registered == {id1}
  {
    var store := new RedisStore(0);
    var otpService := new OTPService(store, otp, limit);
    var users := new UserRepository();
    var auth := new AuthService(otpService, users, jwt);
    ghost var rows0 := users.rows;
    first := LoginWithFreshCode(auth, phone, n1, id1, at);
    second := LoginWithFreshCode(auth, phone, n2, id2, at);
    RepeatLoginSameId(jwt, rows0, FormatOtp(n1), FormatOtp(n2), phone, id1, id2, at, at);
    FirstLoginRegisters(jwt, rows0, FormatOtp(n1), phone, NoLoginFaults, id1, at);
    registered := users.rows.Keys;
  }
}
