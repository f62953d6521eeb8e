/**
 * The global rate limiter every request passes before the routers: one Redis counter per client
 * address and path, started with a timeout of one window; a request past the maximum is answered
 * 429 with a `Retry-After` header. Every Redis failure lets the request through.
 */
module RateLimiter {
  import opened Wrappers
  import opened Text
  import opened Redis

  const DefaultWindow := 60
  const DefaultMax := 60
  /** The `ttl` assumed when the `TTL` command fails. */
  const FallbackTtl := 60

  /** `RATE_LIMIT_WINDOW` (seconds) and `RATE_LIMIT_MAX` (requests per window). */
  datatype Config = Config(window: int, max: int)

  /** `parseInt(raw, 10) || d`: NaN and 0 both fall back to `d`. */
  function DecimalOr(raw: Option<string>, d: int): (n: int)
    ensures n != 0 || d == 0
    ensures raw.None? ==> n == d
  {
    var v := if raw.Some? then ParseDecimal(raw.value) else None;
    if v.Some? && v.value != 0 then v.value else d
  }

  function ConfigOf(rawWindow: Option<string>, rawMax: Option<string>): (c: Config)
    ensures c.window != 0 && c.max != 0
    ensures rawWindow.None? && rawMax.None? ==> c == Config(DefaultWindow, DefaultMax)
  {
    Config(DecimalOr(rawWindow, DefaultWindow), DecimalOr(rawMax, DefaultMax))
  }

  /** With radix 10, "0x1e" reads as 0, so the window falls back to its default. */
  lemma HexWindowFallsBack()
    ensures ConfigOf(Some("0x1e"), None).window == DefaultWindow
  {
    assert TrimStart("0x1e") == "0x1e";
    assert DigitPrefix("x1e") == [];
    assert DigitPrefix("0x1e") == ['0'];
    assert DecValue(['0']) == 0 by {
      assert ['0'][..0] == [];
    }
  }

  /** `req.ip || req.headers["x-forwarded-for"] || req.connection.remoteAddress || "anon"`. */
  function ClientAddress(ip: Option<string>, forwardedFor: Option<string>, remote: Option<string>): (a: string)
    ensures a != ""
  {
    if Given(ip) then ip.value
    else if Given(forwardedFor) then forwardedFor.value
    else if Given(remote) then remote.value
    else "anon"
  }

  /** `rl:<address>:<req.path || "all">`. */
  function CounterKey(address: string, path: Option<string>): (k: string)
    ensures StartsWith(k, "rl:")
  {
    PrefixOfConcat("rl:", address + ":" + OrEmpty(if Given(path) then path else Some("all")));
    "rl:" + (address + ":" + OrEmpty(if Given(path) then path else Some("all")))
  }

  datatype Decision = Next | TooMany(retryAfter: string, message: string)

  /** What one request decides and leaves in the key space. */
  datatype Outcome = Outcome(decision: Decision, kv: map<string, Value>, expiry: map<string, int>)

  /** The count `INCR` leaves under `key`. */
  function Counted(kv: map<string, Value>, key: string): int
    requires key !in kv || kv[key].Count?
  {
    if key in kv then kv[key].n + 1 else 1
  }

  /** `EXPIRE key window` on a key that exists: a window that is not positive deletes the key. */
  function Expired(kv: map<string, Value>, expiry: map<string, int>, key: string, window: int): (o: (map<string, Value>, map<string, int>))
    ensures window > 0 ==> o == (kv, expiry[key := window])
    ensures window <= 0 ==> o == (Without(kv, {key}), Without(expiry, {key}))
  {
    if window > 0 then (kv, expiry[key := window]) else (Without(kv, {key}), Without(expiry, {key}))
  }

  /** `TTL key`: -2 when the key is gone, -1 when it has no timeout. */
  function TtlOf(kv: map<string, Value>, expiry: map<string, int>, key: string): int {
    if key !in kv then -2 else if key in expiry then expiry[key] else -1
  }

  /** The refusal: the header falls back to the window when the ttl is 0; the message shows the ttl as it is. */
  function Refusal(ttl: int, window: int): Decision {
    TooMany(IntToString(if ttl != 0 then ttl else window), "Too many requests. Try again in " + IntToString(ttl) + " seconds")
  }

  /** One request through the limiter. */
  function Admit(caps: Caps, up: bool, kv: map<string, Value>, expiry: map<string, int>, key: string, cfg: Config): Outcome {
    if !caps.incr || !up || (key in kv && !kv[key].Count?) then Outcome(Next, kv, expiry)
    else
      var n := Counted(kv, key);
      var kv1 := kv[key := Count(n)];
      var after := if n == 1 && caps.expire then Expired(kv1, expiry, key, cfg.window) else (kv1, expiry);
      if n > cfg.max then
        var ttl := if caps.ttl then TtlOf(after.0, after.1, key) else FallbackTtl;
        Outcome(Refusal(ttl, cfg.window), after.0, after.1)
      else Outcome(Next, after.0, after.1)
  }

  method Limit(redis: Client, key: string, cfg: Config) returns (d: Decision)
    requires redis.Valid()
    modifies redis
    ensures redis.Valid() && redis.up == old(redis.up)
    ensures Outcome(d, redis.kv, redis.expiry) == Admit(redis.caps, redis.up, old(redis.kv), old(redis.expiry), key, cfg)
  {
    if !redis.caps.incr {
      return Next;
    }
    var ok, counter := redis.Incr(key);
    if !ok {
      return Next;
    }
    if counter == 1 && redis.caps.expire {
      var done := redis.Expire(key, cfg.window);
    }
    if counter > cfg.max {
      var ttl := FallbackTtl;
      if redis.caps.ttl {
        var answered, t := redis.Ttl(key);
        ttl := t;
      }
      return Refusal(ttl, cfg.window);
    }
    d := Next;
  }

  /** Without `INCR`, or with the server down, every request goes through and nothing is stored. */
  lemma FailsOpen(caps: Caps, up: bool, kv: map<string, Value>, expiry: map<string, int>, key: string, cfg: Config)
    requires !caps.incr || !up
    ensures Admit(caps, up, kv, expiry, key, cfg) == Outcome(Next, kv, expiry)
  {
  }

  /** `n` requests in a row for one key, with no time passing between them; the last one's outcome. */
  function Burst(caps: Caps, up: bool, kv: map<string, Value>, expiry: map<string, int>, key: string, cfg: Config, n: nat): Outcome
    requires n >= 1
  {
    if n == 1 then Admit(caps, up, kv, expiry, key, cfg)
    else
      var o := Burst(caps, up, kv, expiry, key, cfg, n - 1);
      Admit(caps, up, o.kv, o.expiry, key, cfg)
  }

  /**
   * Within one window the counter counts the requests, its timeout stays at the window, and the
   * n-th request is refused exactly when n is above the maximum, with the window as `Retry-After`.
   */
  lemma {:induction false} BurstCounts(caps: Caps, up: bool, kv: map<string, Value>, expiry: map<string, int>, key: string, cfg: Config, n: nat)
    requires caps.incr && caps.expire && caps.ttl && up && cfg.window > 0 && key !in kv && n >= 1
    ensures var o := Burst(caps, up, kv, expiry, key, cfg, n);
            && key in o.kv && o.kv[key] == Count(n) && key in o.expiry && o.expiry[key] == cfg.window
            && (o.decision.Next? <==> n <= cfg.max)
            && (o.decision.TooMany? ==> o.decision.retryAfter == IntToString(cfg.window))
  {
    if n > 1 {
      BurstCounts(caps, up, kv, expiry, key, cfg, n - 1);
    }
  }

  /**
   * A window that is not positive makes `EXPIRE` delete the counter as soon as it is created, so
   * with a positive maximum no request is ever refused.
   */
  lemma {:induction false} NonPositiveWindowNeverLimits(caps: Caps, up: bool, kv: map<string, Value>, expiry: map<string, int>, key: string, cfg: Config, n: nat)
    requires caps.incr && caps.expire && up && cfg.window <= 0 && cfg.max >= 1 && key !in kv && n >= 1
    ensures var o := Burst(caps, up, kv, expiry, key, cfg, n);
            o.decision == Next && key !in o.kv && key !in o.expiry
  {
    if n > 1 {
      NonPositiveWindowNeverLimits(caps, up, kv, expiry, key, cfg, n - 1);
    }
  }

  /**
   * Without `EXPIRE` the counter never gets a timeout: once over the maximum it refuses for good,
   * and `TTL` answers -1, which is what `Retry-After` and the message then show.
   */
  lemma WithoutExpireRefusalShowsMinusOne(caps: Caps, up: bool, kv: map<string, Value>, expiry: map<string, int>, key: string, cfg: Config)
    requires caps.incr && !caps.expire && caps.ttl && up
    requires key in kv && kv[key].Count? && kv[key].n >= cfg.max && kv[key].n >= 1 && key !in expiry
    ensures var o := Admit(caps, up, kv, expiry, key, cfg);
            && o.decision == TooMany("-1", "Too many requests. Try again in -1 seconds")
            && key !in o.expiry && o.kv[key] == Count(kv[key].n + 1)
  {
    var kv1 := kv[key := Count(kv[key].n + 1)];
    assert TtlOf(kv1, expiry, key) == -1;
    MinusOneRefusal(cfg.window);
  }

  /** A TTL of -1 is shown as is, both in `Retry-After` and in the message. */
  lemma MinusOneRefusal(window: int)
    ensures Refusal(-1, window) == TooMany("-1", "Too many requests. Try again in -1 seconds")
  {
    assert IntToString(-1) == "-1";
  }
}
