/**
 * OTPService: issuing and verifying one-time codes on top of the store.
 *
 * `Issue` and `Verify` are the specification of one call each, as a function of
 * the store contents before it; the methods of `OTPService` perform the same
 * store calls in the same order and are proved to end in that state.
 */
module OtpService {
  import opened Wrappers
  import opened Settings
  import opened OtpCode
  import opened KeyValueStore

  const SentMessage: string := "OTP sent successfully"

  /** RequestOTP's response: the phone and a message, never the code. */
  datatype RequestOtpResponse = RequestOtpResponse(message: string, phone: string)

  datatype OtpError =
    | RateLimitCheckFailed(cause: StoreError)
    | RateLimitExceeded(phone: string, maxRequests: int, window: int)
    | GenerateFailed(generate: GenerateError)
    | StoreOtpFailed(cause: StoreError)
    | OtpNotFound(cause: StoreError)
    | InvalidOtp

  /** Which store round trips of one call fail. */
  datatype IssueFaults = IssueFaults(increment: bool, store: bool)
  datatype VerifyFaults = VerifyFaults(get: bool, delete: bool)

  const NoIssueFaults := IssueFaults(false, false)
  const NoVerifyFaults := VerifyFaults(false, false)

  /** One RequestOTP call: its result, the store afterwards, and the code written to the log. */
  datatype IssueStep = IssueStep(result: Result<RequestOtpResponse, OtpError>, entries: Entries, logged: Option<string>)

  /** One VerifyOTP call: its result and the store afterwards. */
  datatype VerifyStep = VerifyStep(result: Result<string, OtpError>, entries: Entries)

  /** RequestOTP: count the request, refuse above the limit, draw a code, store it under the phone. */
  function Issue(m: Entries, now: int, phone: string, draw: Draw, faults: IssueFaults,
                 otp: OtpConfig, limit: RateLimitConfig): IssueStep
    requires WellTyped(m) && ValidDraw(draw)
  {
    if faults.increment then IssueStep(Err(RateLimitCheckFailed(Unavailable)), m, None)
    else
      var count := RequestCount(m, now, phone) + 1;
      var counted := IncrementEffect(m, now, phone, limit.window);
      if count > limit.maxRequests then
        IssueStep(Err(RateLimitExceeded(phone, limit.maxRequests, limit.window)), counted, None)
      else
        match GenerateOTP(draw)
        case Err(e) => IssueStep(Err(GenerateFailed(e)), counted, None)
        case Ok(code) =>
          if faults.store then IssueStep(Err(StoreOtpFailed(Unavailable)), counted, None)
          else IssueStep(Ok(RequestOtpResponse(SentMessage, phone)),
                         SetOtpEffect(counted, now, phone, code, otp.expiration), Some(code))
  }

  /** VerifyOTP: look the code up, compare, delete on a match only; a failed delete is ignored. */
  function Verify(m: Entries, now: int, phone: string, otp: string, faults: VerifyFaults): VerifyStep {
    if faults.get then VerifyStep(Err(OtpNotFound(Unavailable)), m)
    else
      match StoredOtp(m, now, phone)
      case None => VerifyStep(Err(OtpNotFound(KeyMissing)), m)
      case Some(stored) =>
        if stored != otp then VerifyStep(Err(InvalidOtp), m)
        else VerifyStep(Ok(stored), if faults.delete then m else DeleteOtpEffect(m, phone))
  }

  // ---- issuance ----

  /** Every request that reaches the store is counted, whatever happens after, and the
      count of any other phone is untouched. */
  lemma {:induction false} IssueCounts(m: Entries, now: int, phone: string, draw: Draw, faults: IssueFaults,
                                       otp: OtpConfig, limit: RateLimitConfig, other: string)
    requires WellTyped(m) && ValidDraw(draw) && limit.window > 0 && !faults.increment
    ensures var s := Issue(m, now, phone, draw, faults, otp, limit);
      && WellTyped(s.entries)
      && RequestCount(s.entries, now, phone) == RequestCount(m, now, phone) + 1
      && (other != phone ==> RequestCount(s.entries, now, other) == RequestCount(m, now, other))
  {
    IncrementCounts(m, now, phone, limit.window);
    IncrementFrame(m, now, phone, limit.window, other, now);
    var counted := IncrementEffect(m, now, phone, limit.window);
    if draw.Drawn? && draw.n < CodeSpace {
      SetOtpWellTyped(counted, now, phone, FormatOtp(draw.n), otp.expiration);
      SetOtpFrame(counted, now, phone, FormatOtp(draw.n), otp.expiration, phone, now);
      SetOtpFrame(counted, now, phone, FormatOtp(draw.n), otp.expiration, other, now);
    }
  }

  /** A request whose count passes the limit is refused with the phone, the limit and the
      window, and no stored code changes. */
  lemma {:induction false} IssueRefusedOverLimit(m: Entries, now: int, phone: string, draw: Draw, faults: IssueFaults,
                                                 otp: OtpConfig, limit: RateLimitConfig, q: string, t: int)
    requires WellTyped(m) && ValidDraw(draw) && !faults.increment
    requires RequestCount(m, now, phone) + 1 > limit.maxRequests
    ensures var s := Issue(m, now, phone, draw, faults, otp, limit);
      && s.result == Err(RateLimitExceeded(phone, limit.maxRequests, limit.window))
      && s.logged == None
      && StoredOtp(s.entries, t, q) == StoredOtp(m, t, q)
  {
    IncrementFrame(m, now, phone, limit.window, q, t);
  }

  /** A request succeeds exactly when the counter is reachable, the count is within the limit,
      the random source works and the code is stored; the new code then replaces any earlier
      one for the phone until the OTP expiration, and other phones' codes are untouched. */
  lemma {:induction false} IssueSucceeds(m: Entries, now: int, phone: string, draw: Draw, faults: IssueFaults,
                                         otp: OtpConfig, limit: RateLimitConfig, q: string, t: int)
    requires WellTyped(m) && ValidDraw(draw) && now <= t
    ensures var s := Issue(m, now, phone, draw, faults, otp, limit);
      && (s.result.Ok? <==>
            !faults.increment && RequestCount(m, now, phone) + 1 <= limit.maxRequests &&
            draw.Drawn? && !faults.store)
      && (s.result.Ok? ==>
            && s.result.value == RequestOtpResponse(SentMessage, phone)
            && s.logged == Some(FormatOtp(draw.n))
            && StoredOtp(s.entries, t, phone)
               == (if t < now + otp.expiration then Some(FormatOtp(draw.n)) else None)
            && (q != phone ==> StoredOtp(s.entries, t, q) == StoredOtp(m, t, q)))
  {
    if !faults.increment {
      var counted := IncrementEffect(m, now, phone, limit.window);
      IncrementFrame(m, now, phone, limit.window, q, t);
      if draw.Drawn? && draw.n < CodeSpace {
        var code := FormatOtp(draw.n);
        SetOtpThenGet(counted, now, phone, code, otp.expiration, t);
        SetOtpFrame(counted, now, phone, code, otp.expiration, q, t);
      }
    }
  }

  /** Every request that reaches the store restarts the window: until one window after it,
      the count read is the count before it plus one, whether it was served or refused. */
  lemma {:induction false} RequestRestartsWindow(m: Entries, now: int, phone: string, draw: Draw,
                                                 faults: IssueFaults, otp: OtpConfig, limit: RateLimitConfig,
                                                 later: int)
    requires WellTyped(m) && ValidDraw(draw) && !faults.increment && limit.window > 0
    requires now <= later < now + limit.window
    ensures RequestCount(Issue(m, now, phone, draw, faults, otp, limit).entries, later, phone)
         == RequestCount(m, now, phone) + 1
  {
    IncrementCounts(m, now, phone, limit.window);
    var counted := IncrementEffect(m, now, phone, limit.window);
    assert RequestCount(counted, later, phone) == RequestCount(m, now, phone) + 1;
    if draw.Drawn? {
      SetOtpFrame(counted, now, phone, FormatOtp(draw.n), otp.expiration, phone, later);
    }
  }

  /** A refused request is counted too, and its EXPIRE restarts the window: the phone stays over the
      limit for a full window after its latest request, not after its first one. */
  lemma {:induction false} RefusedRequestRestartsWindow(m: Entries, now: int, phone: string, draw: Draw,
                                                        faults: IssueFaults, otp: OtpConfig, limit: RateLimitConfig,
                                                        later: int)
    requires WellTyped(m) && ValidDraw(draw) && !faults.increment && limit.window > 0
    requires RequestCount(m, now, phone) + 1 > limit.maxRequests
    requires now <= later < now + limit.window
    ensures var s := Issue(m, now, phone, draw, faults, otp, limit);
      && s.result.Err?
      && RequestCount(s.entries, later, phone) == RequestCount(m, now, phone) + 1
      && RequestCount(s.entries, later, phone) > limit.maxRequests
  {
    IncrementCounts(m, now, phone, limit.window);
  }

  /** A failed store of the code (or a failed draw) is an error with nothing logged, yet the
      request was counted and the previously stored code is still in place. */
  lemma {:induction false} IssueFailureAfterCount(m: Entries, now: int, phone: string, draw: Draw, faults: IssueFaults,
                                                  otp: OtpConfig, limit: RateLimitConfig, q: string, t: int)
    requires WellTyped(m) && ValidDraw(draw) && !faults.increment
    requires RequestCount(m, now, phone) + 1 <= limit.maxRequests
    requires faults.store || draw.EntropyFailure?
    ensures var s := Issue(m, now, phone, draw, faults, otp, limit);
      && s.result.Err? && s.logged == None
      && s.entries == IncrementEffect(m, now, phone, limit.window)
      && StoredOtp(s.entries, t, q) == StoredOtp(m, t, q)
  {
    IncrementFrame(m, now, phone, limit.window, q, t);
  }

  // ---- verification ----

  /** Verification succeeds exactly when the stored code equals the candidate, and then returns it. */
  lemma {:induction false} VerifySucceedsIffMatch(m: Entries, now: int, phone: string, otp: string, faults: VerifyFaults)
    ensures var s := Verify(m, now, phone, otp, faults);
      && (s.result.Ok? <==> !faults.get && StoredOtp(m, now, phone) == Some(otp))
      && (s.result.Ok? ==> s.result.value == otp)
      && (!faults.get && StoredOtp(m, now, phone).None? ==> s.result == Err(OtpNotFound(KeyMissing)))
  {
  }

  /** A wrong code is refused with `InvalidOtp` and consumes nothing: the right code still works afterwards. */
  lemma {:induction false} RetryAfterMismatch(m: Entries, now: int, phone: string, code: string, wrong: string)
    requires StoredOtp(m, now, phone) == Some(code) && wrong != code
    ensures var s := Verify(m, now, phone, wrong, NoVerifyFaults);
      && s.result == Err(InvalidOtp)
      && s.entries == m
      && Verify(s.entries, now, phone, code, NoVerifyFaults).result == Ok(code)
  {
  }

  /** A code is accepted once: after a successful verify whose delete went through, any second
      verify of the phone fails as not found; other phones' codes and all counts are untouched. */
  lemma {:induction false} SingleUse(m: Entries, now: int, phone: string, otp: string, later: int,
                                     again: string, q: string)
    requires Verify(m, now, phone, otp, NoVerifyFaults).result.Ok?
    ensures var s := Verify(m, now, phone, otp, NoVerifyFaults);
      && Verify(s.entries, later, phone, again, NoVerifyFaults).result == Err(OtpNotFound(KeyMissing))
      && RequestCount(s.entries, later, q) == RequestCount(m, later, q)
      && (q != phone ==> StoredOtp(s.entries, later, q) == StoredOtp(m, later, q))
  {
    DeleteOtpFrame(m, phone, phone, later);
    DeleteOtpFrame(m, phone, q, later);
  }

  /** A failed delete does not turn a successful verification into a failure; the code then stays stored. */
  lemma {:induction false} DeleteFailureStillSucceeds(m: Entries, now: int, phone: string, otp: string)
    ensures Verify(m, now, phone, otp, VerifyFaults(false, true)).result
         == Verify(m, now, phone, otp, NoVerifyFaults).result
    ensures Verify(m, now, phone, otp, VerifyFaults(false, true)).entries == m
  {
  }

  /**
   * OTPService: the store it mutates and the configuration it reads.
   */
  class OTPService {
    const store: RedisStore
    const otpConfig: OtpConfig
    const limitConfig: RateLimitConfig

    constructor (store: RedisStore, otpConfig: OtpConfig, limitConfig: RateLimitConfig)
      ensures this.store == store && this.otpConfig == otpConfig && this.limitConfig == limitConfig
    {
      this.store := store;
      this.otpConfig := otpConfig;
      this.limitConfig := limitConfig;
    }

    method RequestOTP(phone: string, draw: Draw, faults: IssueFaults)
      returns (r: Result<RequestOtpResponse, OtpError>, logged: Option<string>)
      requires store.Valid() && ValidDraw(draw)
      modifies store
      ensures store.Valid() && store.now == old(store.now)
      ensures IssueStep(r, store.entries, logged)
           == Issue(old(store.entries), store.now, phone, draw, faults, otpConfig, limitConfig)
    {
      var count, err := store.IncrementRateLimit(phone, limitConfig.window, faults.increment);
      if err.Some? {
        return Err(RateLimitCheckFailed(err.value)), None;
      }
      if count > limitConfig.maxRequests {
        return Err(RateLimitExceeded(phone, limitConfig.maxRequests, limitConfig.window)), None;
      }
      var generated := GenerateOTP(draw);
      if generated.Err? {
        return Err(GenerateFailed(generated.error)), None;
      }
      var code := generated.value;
      err := store.SetOTP(phone, code, otpConfig.expiration, faults.store);
      if err.Some? {
        return Err(StoreOtpFailed(err.value)), None;
      }
      logged := Some(code);
      r := Ok(RequestOtpResponse(SentMessage, phone));
    }

    method VerifyOTP(phone: string, otp: string, faults: VerifyFaults) returns (r: Result<string, OtpError>)
      requires store.Valid()
      modifies store
      ensures store.Valid() && store.now == old(store.now)
      ensures VerifyStep(r, store.entries) == Verify(old(store.entries), store.now, phone, otp, faults)
    {
      var stored := store.GetOTP(phone, faults.get);
      if stored.Err? {
        return Err(OtpNotFound(stored.error));
      }
      if stored.value != otp {
        return Err(InvalidOtp);
      }
      // The outcome of the delete is only logged.
      var _ := store.DeleteOTP(phone, faults.delete);
      r := Ok(stored.value);
    }
  }

  // ---- client scenarios over a fresh store ----

  /** Serves `maxRequests` requests for a phone on an empty store, `gap` seconds apart; the count then
      stays at the budget for one more `gap`. */
  method ServeBudget(service: OTPService, phone: string, n: nat, gap: nat)
    returns (served: seq<Result<RequestOtpResponse, OtpError>>)
    requires service.store.Valid() && service.store.entries == map[] && n < CodeSpace
    requires service.limitConfig.window > 0 && service.limitConfig.maxRequests >= 1
    requires gap < service.limitConfig.window
    modifies service.store
    ensures service.store.Valid()
    ensures |served| == service.limitConfig.maxRequests
    ensures forall i :: 0 <= i < |served| ==> served[i] == Ok(RequestOtpResponse(SentMessage, phone))
    ensures service.store.now == old(service.store.now) + (|served| - 1) * gap
    ensures RequestCount(service.store.entries, service.store.now + gap, phone) == |served|
  {
    var store := service.store;
    var otp, limit := service.otpConfig, service.limitConfig;
    ghost var start := store.now;
    served := [];
    while |served| < limit.maxRequests
      invariant store.Valid()
      invariant |served| <= limit.maxRequests
      invariant |served| == 0 ==> store.now == start && store.entries == map[]
      invariant |served| > 0 ==> store.now == start + (|served| - 1) * gap
      invariant |served| > 0 ==> RequestCount(store.entries, store.now + gap, phone) == |served|
      invariant forall i :: 0 <= i < |served| ==> served[i] == Ok(RequestOtpResponse(SentMessage, phone))
    {
      if |served| > 0 {
        store.Advance(gap);
      }
      ghost var before := store.entries;
      assert RequestCount(before, store.now, phone) == |served|;
      var r, _ := service.RequestOTP(phone, Drawn(n), NoIssueFaults);
      RequestRestartsWindow(before, store.now, phone, Drawn(n), NoIssueFaults, otp, limit, store.now + gap);
      IssueSucceeds(before, store.now, phone, Drawn(n), NoIssueFaults, otp, limit, phone, store.now);
      served := served + [r];
    }
  }

  /** Requests for a phone `gap` seconds apart, `gap` shorter than the window: the first `maxRequests`
      are served and the next one is refused, however long the run has lasted, because each request
      restarts the window; once a whole window passes without a request, one is served again. */
  method ThrottleWithinWindow(phone: string, otp: OtpConfig, limit: RateLimitConfig, n: nat, start: int, gap: nat)
    returns (served: seq<Result<RequestOtpResponse, OtpError>>,
             refused: Result<RequestOtpResponse, OtpError>,
             afterWindow: Result<RequestOtpResponse, OtpError>, refusedAt: int)
    requires limit.window > 0 && limit.maxRequests >= 1 && n < CodeSpace && gap < limit.window
    ensures |served| == limit.maxRequests
    ensures forall i :: 0 <= i < |served| ==> served[i] == Ok(RequestOtpResponse(SentMessage, phone))
    ensures refused == Err(RateLimitExceeded(phone, limit.maxRequests, limit.window))
    ensures refusedAt == start + limit.maxRequests * gap
    ensures afterWindow == Ok(RequestOtpResponse(SentMessage, phone))
  {
    var store := new RedisStore(start);
    var service := new OTPService(store, otp, limit);
    served := ServeBudget(service, phone, n, gap);
    store.Advance(gap);
    refusedAt := store.now;
    ghost var full := store.entries;
    var logged;
    refused, logged := service.RequestOTP(phone, Drawn(n), NoIssueFaults);
    IssueRefusedOverLimit(full, store.now, phone, Drawn(n), NoIssueFaults, otp, limit, phone, store.now);
    RequestRestartsWindow(full, store.now, phone, Drawn(n), NoIssueFaults, otp, limit, store.now);
    IncrementCounts(full, store.now, phone, limit.window);
    store.Advance(limit.window);
    ghost var elapsed := store.entries;
    assert RequestCount(elapsed, store.now, phone) == 0;
    afterWindow, logged := service.RequestOTP(phone, Drawn(n), NoIssueFaults);
    IssueSucceeds(elapsed, store.now, phone, Drawn(n), NoIssueFaults, otp, limit, phone, store.now);
  }

  /** Request a code, try a wrong one, the right one, and the right one again: the wrong
      attempt is refused without consuming the code, the right one is accepted once, the
      replay finds nothing; a second code that is left to expire cannot be verified. */
  method SingleUseLifecycle(phone: string, otp: OtpConfig, limit: RateLimitConfig, n: nat, wrong: string, start: int)
    returns (wrongAttempt: Result<string, OtpError>, accepted: Result<string, OtpError>,
             replay: Result<string, OtpError>, expired: Result<string, OtpError>)
    requires limit.maxRequests >= 2 && limit.window > 0 && otp.expiration > 0
    requires n < CodeSpace && wrong != FormatOtp(n)
    ensures wrongAttempt == Err(InvalidOtp)
    ensures accepted == Ok(FormatOtp(n))
    ensures replay == Err(OtpNotFound(KeyMissing))
    ensures expired == Err(OtpNotFound(KeyMissing))
  {
    var store := new RedisStore(start);
    var service := new OTPService(store, otp, limit);
    var code := FormatOtp(n);

    ghost var m0 := store.entries;
    var issued, _ := service.RequestOTP(phone, Drawn(n), NoIssueFaults);
    IssueSucceeds(m0, store.now, phone, Drawn(n), NoIssueFaults, otp, limit, phone, store.now);
    IssueCounts(m0, store.now, phone, Drawn(n), NoIssueFaults, otp, limit, phone);

    ghost var m1 := store.entries;
    wrongAttempt := service.VerifyOTP(phone, wrong, NoVerifyFaults);
    RetryAfterMismatch(m1, store.now, phone, code, wrong);
    accepted := service.VerifyOTP(phone, code, NoVerifyFaults);
    ghost var m2 := store.entries;
    replay := service.VerifyOTP(phone, code, NoVerifyFaults);
    SingleUse(m1, store.now, phone, code, store.now, code, phone);
    assert RequestCount(m2, store.now, phone) == 1;

    ghost var m3 := store.entries;
    var reissued, _ := service.RequestOTP(phone, Drawn(n), NoIssueFaults);
    IssueSucceeds(m3, store.now, phone, Drawn(n), NoIssueFaults, otp, limit, phone, store.now + otp.expiration);
    store.Advance(otp.expiration);
    expired := service.VerifyOTP(phone, code, NoVerifyFaults);
  }
}
