/**
 * The expiring key-value store behind RedisStore, over a logical clock.
 *
 * The Redis commands the store issues (SET with a TTL, EXPIRE, INCR, GET, DEL)
 * are pure functions on a map from keys to entries; each RedisStore method runs
 * the same commands in the same order on its `entries` field. A store outage is
 * a `fault` parameter of each call; a failed pipeline leaves the store as it was.
 */
module KeyValueStore {
  import opened Wrappers

  const OtpPrefix: string := "otp:"
  const RateLimitPrefix: string := "rate_limit:"

  function OtpKey(phone: string): string {
    OtpPrefix + phone
  }

  function RateLimitKey(phone: string): string {
    RateLimitPrefix + phone
  }

  /** A Redis string value: an OTP text, or a number INCR maintains. */
  datatype Value = Text(text: string) | Counter(count: int)

  /** No TTL, or the clock reading at which the key disappears. */
  datatype Expiry = Never | At(deadline: int)

  datatype Entry = Entry(value: Value, expiry: Expiry)

  type Entries = map<string, Entry>

  /** `KeyMissing` is go-redis's `redis.Nil` (absent or expired key); `Unavailable` a failed round trip. */
  datatype StoreError = KeyMissing | Unavailable

  predicate Alive(e: Entry, now: int) {
    e.expiry.Never? || now < e.expiry.deadline
  }

  /** The value a read sees at time `now`: expired keys are absent. */
  function Lookup(m: Entries, now: int, key: string): Option<Value> {
    if key in m && Alive(m[key], now) then Some(m[key].value) else None
  }

  /** Expiry is permanent: a key readable at some instant was readable at every earlier instant
      of the same contents, and one that has expired stays unreadable later. */
  lemma {:induction false} ExpiryIsPermanent(m: Entries, key: string, t: int, t': int)
    requires t <= t'
    ensures Lookup(m, t', key).Some? ==> Lookup(m, t, key) == Lookup(m, t', key)
    ensures Lookup(m, t, key).None? ==> Lookup(m, t', key).None?
  {
    if key in m && m[key].expiry.At? {
      assert Alive(m[key], t') ==> Alive(m[key], t);
    }
  }

  /** Namespaces keep value kinds apart: counters only under `rate_limit:`, texts only under `otp:`. */
  predicate WellTyped(m: Entries) {
    forall k :: k in m ==>
      (m[k].value.Counter? ==> RateLimitPrefix <= k) && (m[k].value.Text? ==> OtpPrefix <= k)
  }

  /** `m` and `m'` agree everywhere except possibly at `key`. */
  predicate SameExcept(m: Entries, m': Entries, key: string) {
    m - {key} == m' - {key}
  }

  // ---- single Redis commands ----

  /** SET key v with an expiration: a positive TTL sets a deadline, otherwise the key has none. */
  function Set(m: Entries, now: int, key: string, v: Value, ttl: int): (m': Entries)
    ensures key in m' && m'[key].value == v
    ensures SameExcept(m, m', key)
  {
    m[key := Entry(v, if ttl > 0 then At(now + ttl) else Never)]
  }

  /** EXPIRE key ttl: a no-op on a missing key; a non-positive TTL deletes the key. */
  function Expire(m: Entries, now: int, key: string, ttl: int): (m': Entries)
    ensures SameExcept(m, m', key)
    ensures Lookup(m, now, key).None? ==> m' == m
    ensures Lookup(m, now, key).Some? && ttl <= 0 ==> key !in m'
    ensures Lookup(m, now, key).Some? && ttl > 0 ==>
      key in m' && m'[key] == Entry(m[key].value, At(now + ttl))
  {
    if Lookup(m, now, key).None? then m
    else if ttl <= 0 then m - {key}
    else m[key := m[key].(expiry := At(now + ttl))]
  }

  /** DEL key: removing a missing key is not an error. */
  function Del(m: Entries, key: string): (m': Entries)
    ensures key !in m' && SameExcept(m, m', key)
  {
    m - {key}
  }

  /** The number INCR starts from: the live counter, or 0 when the key is absent or expired. */
  function CounterAt(m: Entries, now: int, key: string): int {
    match Lookup(m, now, key)
    case Some(Counter(c)) => c
    case _ => 0
  }

  /** INCR key: a new key starts from 0 without a TTL; an existing counter keeps its TTL. */
  function Incr(m: Entries, now: int, key: string): (m': Entries)
    requires Lookup(m, now, key).None? || Lookup(m, now, key).value.Counter?
    ensures Lookup(m', now, key) == Some(Counter(CounterAt(m, now, key) + 1))
    ensures SameExcept(m, m', key)
  {
    var c := CounterAt(m, now, key);
    match Lookup(m, now, key)
    case Some(_) => m[key := m[key].(value := Counter(c + 1))]
    case None => m[key := Entry(Counter(c + 1), Never)]
  }

  // ---- the pipelines of RedisStore ----

  /** SetOTP's pipeline: SET otp:<phone> code ttl, then EXPIRE otp:<phone> ttl. */
  function SetOtpEffect(m: Entries, now: int, phone: string, code: string, ttl: int): Entries {
    var key := OtpKey(phone);
    Expire(Set(m, now, key, Text(code), ttl), now, key, ttl)
  }

  /** IncrementRateLimit's pipeline: INCR rate_limit:<phone>, then EXPIRE it by `window`. */
  function IncrementEffect(m: Entries, now: int, phone: string, window: int): Entries
    requires WellTyped(m)
  {
    var key := RateLimitKey(phone);
    RateLimitKeyNotOtp(phone);
    Expire(Incr(m, now, key), now, key, window)
  }

  /** DeleteOTP's command: DEL otp:<phone>. */
  function DeleteOtpEffect(m: Entries, phone: string): Entries {
    Del(m, OtpKey(phone))
  }

  // ---- what the service reads ----

  /** The live OTP stored for `phone`. */
  function StoredOtp(m: Entries, now: int, phone: string): Option<string> {
    match Lookup(m, now, OtpKey(phone))
    case Some(Text(s)) => Some(s)
    case _ => None
  }

  /** The requests counted for `phone` in its current window. */
  function RequestCount(m: Entries, now: int, phone: string): int {
    CounterAt(m, now, RateLimitKey(phone))
  }

  // ---- key namespaces ----

  lemma {:induction false} RateLimitKeyNotOtp(phone: string)
    ensures RateLimitPrefix <= RateLimitKey(phone) && !(OtpPrefix <= RateLimitKey(phone))
  {
    assert RateLimitKey(phone)[..|RateLimitPrefix|] == RateLimitPrefix;
    assert RateLimitKey(phone)[0] == 'r';
  }

  lemma {:induction false} OtpKeyNotRateLimit(phone: string)
    ensures OtpPrefix <= OtpKey(phone) && !(RateLimitPrefix <= OtpKey(phone))
  {
    assert OtpKey(phone)[..|OtpPrefix|] == OtpPrefix;
    assert OtpKey(phone)[0] == 'o';
  }

  /** OTP keys and rate-limit keys never collide. */
  lemma {:induction false} NamespacesDisjoint(p: string, q: string)
    ensures OtpKey(p) != RateLimitKey(q)
  {
    OtpKeyNotRateLimit(p);
    RateLimitKeyNotOtp(q);
  }

  /** Distinct phones have distinct keys in each namespace. */
  lemma {:induction false} KeysInjective(p: string, q: string)
    requires p != q
    ensures OtpKey(p) != OtpKey(q) && RateLimitKey(p) != RateLimitKey(q)
  {
    assert OtpKey(p)[|OtpPrefix|..] == p && OtpKey(q)[|OtpPrefix|..] == q;
    assert RateLimitKey(p)[|RateLimitPrefix|..] == p && RateLimitKey(q)[|RateLimitPrefix|..] == q;
  }

  // ---- properties of the pipelines ----

  /** After SetOTP, a read before the deadline returns the new code whatever was stored before
      (last write wins); with a non-positive TTL the EXPIRE deletes the key at once. */
  lemma {:induction false} SetOtpThenGet(m: Entries, now: int, phone: string, code: string, ttl: int, later: int)
    requires now <= later
    ensures StoredOtp(SetOtpEffect(m, now, phone, code, ttl), later, phone)
         == if ttl > 0 && later < now + ttl then Some(code) else None
  {
  }

  /** SetOTP touches only `otp:<phone>`: every count and every other phone's code is unchanged. */
  lemma {:induction false} SetOtpFrame(m: Entries, now: int, phone: string, code: string, ttl: int, other: string, t: int)
    ensures RequestCount(SetOtpEffect(m, now, phone, code, ttl), t, other) == RequestCount(m, t, other)
    ensures other != phone ==> StoredOtp(SetOtpEffect(m, now, phone, code, ttl), t, other) == StoredOtp(m, t, other)
  {
    NamespacesDisjoint(phone, other);
    if other != phone {
      KeysInjective(phone, other);
    }
  }

  lemma {:induction false} SetOtpWellTyped(m: Entries, now: int, phone: string, code: string, ttl: int)
    requires WellTyped(m)
    ensures WellTyped(SetOtpEffect(m, now, phone, code, ttl))
  {
    OtpKeyNotRateLimit(phone);
  }

  /** IncrementRateLimit returns the previous count plus one (0 when absent or expired);
      with a positive window the key's TTL is then exactly `window`, on every call. */
  lemma {:induction false} IncrementCounts(m: Entries, now: int, phone: string, window: int)
    requires WellTyped(m)
    ensures var m' := IncrementEffect(m, now, phone, window);
      && WellTyped(m')
      && (window > 0 ==>
            RateLimitKey(phone) in m' &&
            m'[RateLimitKey(phone)] == Entry(Counter(RequestCount(m, now, phone) + 1), At(now + window)))
      && (window <= 0 ==> RateLimitKey(phone) !in m')
  {
    RateLimitKeyNotOtp(phone);
  }

  /** IncrementRateLimit touches only `rate_limit:<phone>`: every stored code and every other count is unchanged. */
  lemma {:induction false} IncrementFrame(m: Entries, now: int, phone: string, window: int, other: string, t: int)
    requires WellTyped(m)
    ensures StoredOtp(IncrementEffect(m, now, phone, window), t, other) == StoredOtp(m, t, other)
    ensures other != phone ==> RequestCount(IncrementEffect(m, now, phone, window), t, other) == RequestCount(m, t, other)
  {
    NamespacesDisjoint(other, phone);
    if other != phone {
      KeysInjective(phone, other);
    }
  }

  /** DeleteOTP removes the code of `phone` and nothing else. */
  lemma {:induction false} DeleteOtpFrame(m: Entries, phone: string, other: string, t: int)
    ensures StoredOtp(DeleteOtpEffect(m, phone), t, phone) == None
    ensures RequestCount(DeleteOtpEffect(m, phone), t, other) == RequestCount(m, t, other)
    ensures other != phone ==> StoredOtp(DeleteOtpEffect(m, phone), t, other) == StoredOtp(m, t, other)
  {
    NamespacesDisjoint(phone, other);
    if other != phone {
      KeysInjective(phone, other);
    }
  }

  /** A key written with a positive TTL is gone once the clock reaches its deadline. */
  lemma {:induction false} ExpiresAfterTtl(m: Entries, now: int, phone: string, code: string, ttl: int, later: int)
    requires ttl > 0 && now + ttl <= later
    ensures StoredOtp(SetOtpEffect(m, now, phone, code, ttl), later, phone) == None
  {
  }

  /**
   * RedisStore: the keyed store the OTP service mutates, with a logical clock.
   */
  class RedisStore {
    var entries: Entries
    var now: int

    ghost predicate Valid()
      reads this
    {
      WellTyped(entries)
    }

    constructor (start: int)
      ensures Valid() && entries == map[] && now == start
    {
      entries := map[];
      now := start;
    }

    /** Time passes; entries are kept and expire by their deadlines. */
    method Advance(seconds: nat)
      modifies this
      ensures entries == old(entries) && now == old(now) + seconds
    {
      now := now + seconds;
    }

    /** SetOTP: SET then EXPIRE on `otp:<phone>`, as one pipeline. */
    method SetOTP(phone: string, code: string, ttl: int, fault: bool) returns (err: Option<StoreError>)
      requires Valid()
      modifies this
      ensures Valid() && now == old(now)
      ensures fault ==> err == Some(Unavailable) && entries == old(entries)
      ensures !fault ==> err == None && entries == SetOtpEffect(old(entries), now, phone, code, ttl)
    {
      if fault {
        return Some(Unavailable);
      }
      SetOtpWellTyped(entries, now, phone, code, ttl);
      var key := OtpKey(phone);
      entries := Set(entries, now, key, Text(code), ttl);
      entries := Expire(entries, now, key, ttl);
      err := None;
    }

    /** GetOTP: the live code under `otp:<phone>`, or `KeyMissing`. */
    method GetOTP(phone: string, fault: bool) returns (r: Result<string, StoreError>)
      requires Valid()
      ensures fault ==> r == Err(Unavailable)
      ensures !fault ==> (r.Ok? <==> StoredOtp(entries, now, phone).Some?)
      ensures !fault && r.Ok? ==> StoredOtp(entries, now, phone) == Some(r.value)
      ensures !fault && r.Err? ==> r.error == KeyMissing
    {
      if fault {
        return Err(Unavailable);
      }
      var v := Lookup(entries, now, OtpKey(phone));
      match v
      case None =>
        r := Err(KeyMissing);
      case Some(Text(s)) =>
        r := Ok(s);
      case Some(Counter(_)) =>
        OtpKeyNotRateLimit(phone);
        assert false;
    }

    /** DeleteOTP: DEL `otp:<phone>`; a missing key is not an error. */
    method DeleteOTP(phone: string, fault: bool) returns (err: Option<StoreError>)
      requires Valid()
      modifies this
      ensures Valid() && now == old(now)
      ensures fault ==> err == Some(Unavailable) && entries == old(entries)
      ensures !fault ==> err == None && entries == DeleteOtpEffect(old(entries), phone)
    {
      if fault {
        return Some(Unavailable);
      }
      entries := Del(entries, OtpKey(phone));
      err := None;
    }

    /** IncrementRateLimit: INCR then EXPIRE `rate_limit:<phone>` by `window`, as one pipeline;
        returns the new count, or 0 with an error when the pipeline fails. */
    method IncrementRateLimit(phone: string, window: int, fault: bool) returns (count: int, err: Option<StoreError>)
      requires Valid()
      modifies this
      ensures Valid() && now == old(now)
      ensures fault ==> count == 0 && err == Some(Unavailable) && entries == old(entries)
      ensures !fault ==> err == None && count == RequestCount(old(entries), now, phone) + 1
      ensures !fault ==> entries == IncrementEffect(old(entries), now, phone, window)
    {
      if fault {
        return 0, Some(Unavailable);
      }
      IncrementCounts(entries, now, phone, window);
      var key := RateLimitKey(phone);
      RateLimitKeyNotOtp(phone);
      count := CounterAt(entries, now, key) + 1;
      entries := Incr(entries, now, key);
      entries := Expire(entries, now, key, window);
      err := None;
    }
  }
}
