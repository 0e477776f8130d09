/**
 * The configuration values the core reads. Loading them from the environment
 * is outside the model; every service receives them as plain values.
 * Durations are whole seconds of the logical clock.
 */
module Settings {

  /** OTP settings. `length` and `maxRetries` are carried but never read by the core. */
  datatype OtpConfig = OtpConfig(length: int, expiration: int, maxRetries: int)

  datatype RateLimitConfig = RateLimitConfig(maxRequests: int, window: int)

  datatype JwtConfig = JwtConfig(secret: string, expiration: int)

  datatype SecurityConfig = SecurityConfig(
    allowedOrigins: seq<string>,
    trustedProxies: seq<string>,
    enableCors: bool,
    enableRateLimit: bool)
}
