/** The token-bucket limiter: a bounded map of buckets that is pruned when a new client
    appears.  Tokens and time are reals. */
module RateLimiting {

  /** The three limits, which the configuration reader only accepts when positive. */
  datatype Settings = Settings(requests: nat, windowSeconds: nat, maxClients: nat) {
    predicate Valid() {
      requests > 0 && windowSeconds > 0 && maxClients > 0
    }

    function Capacity(): real {
      requests as real
    }

    function Window(): real {
      windowSeconds as real
    }

    function Refill(): real
      requires Valid()
    {
      Capacity() / Window()
    }

    lemma RefillPositive()
      requires Valid()
      ensures Refill() > 0.0
    {
    }

    lemma RefillFacts()
      requires Valid()
      ensures Refill() > 0.0 && Refill() * Window() == Capacity()
    {
    }
  }

  const OVERFLOW := "__overflow__"

  datatype Level = Level(tokens: real, updatedAt: real)

  type Levels = map<string, Level>

  datatype Answer = Answer(allowed: bool, remaining: int, retryAfter: int)

  /** The state after a request, the bucket it was charged to, and its answer. */
  datatype Outcome = Outcome(levels: Levels, key: string, answer: Answer)

  function Min(a: real, b: real): real { if a <= b then a else b }

  function Max(a: real, b: real): real { if a >= b then a else b }

  function Ceiling(x: real): (n: int)
    ensures n as real - 1.0 < x <= n as real
  {
    -(-x).Floor
  }

  // ---------------------------------------------------------------- specification

  predicate Stale(s: Settings, level: Level, now: real) {
    now - level.updatedAt > 2.0 * s.Window()
  }

  function Prune(s: Settings, m: Levels, now: real): Levels {
    map k | k in m && !Stale(s, m[k], now) :: m[k]
  }

  predicate TakesOverflow(s: Settings, m: Levels, client: string, now: real) {
    client !in m && |Prune(s, m, now)| >= s.maxClients
  }

  /** Tokens in the bucket at time `now`. */
  function Refilled(s: Settings, level: Level, now: real): real
    requires s.Valid()
  {
    Min(s.Capacity(), level.tokens + Max(0.0, now - level.updatedAt) * s.Refill())
  }

  /** Seconds to wait from a level below one token. */
  function RetryAfter(s: Settings, tokens: real): int
    requires s.Valid()
  {
    s.RefillPositive();
    var wait := Ceiling((1.0 - tokens) / s.Refill());
    if wait > 1 then wait else 1
  }

  function Charge(s: Settings, level: Level, now: real): (r: (Level, Answer))
    requires s.Valid()
  {
    var tokens := Refilled(s, level, now);
    if tokens < 1.0 then (Level(tokens, now), Answer(false, 0, RetryAfter(s, tokens)))
    else (Level(tokens - 1.0, now), Answer(true, (tokens - 1.0).Floor, 0))
  }

  function ChargeAt(s: Settings, m: Levels, key: string, now: real): Outcome
    requires s.Valid()
  {
    var (level, answer) := Charge(s, if key in m then m[key] else Level(s.Capacity(), now), now);
    Outcome(m[key := level], key, answer)
  }

  /** One request by `client` at time `now`. */
  function Consume(s: Settings, m: Levels, client: string, now: real): Outcome
    requires s.Valid()
  {
    if client in m then ChargeAt(s, m, client, now)
    else ChargeAt(s, Prune(s, m, now), if TakesOverflow(s, m, client, now) then OVERFLOW else client, now)
  }

  // ---------------------------------------------------------------- a request, field by field

  /** The buckets that are not dropped: those used within the last two windows. */
  function Recent(s: Settings, m: Levels, now: real): Levels {
    map k | k in m && now - m[k].updatedAt <= 2.0 * s.windowSeconds as real :: m[k]
  }

  /** Tokens a second. */
  function Rate(s: Settings): real
    requires s.Valid()
  {
    s.requests as real / s.windowSeconds as real
  }

  /** A new bucket holds `requests` tokens; a held one gains `requests` a window, up to that. */
  function TokensAt(s: Settings, m: Levels, key: string, now: real): real
    requires s.Valid()
  {
    if key !in m then s.requests as real
    else
      var elapsed := if now > m[key].updatedAt then now - m[key].updatedAt else 0.0;
      var gained := m[key].tokens + elapsed * Rate(s);
      if gained <= s.requests as real then gained else s.requests as real
  }

  /** A whole token is taken; else the answer is the least number of seconds, at least one,
      after which there is one. */
  ghost predicate IsCharged(s: Settings, m: Levels, key: string, now: real, v: Levels, answer: Answer)
    requires s.Valid()
  {
    var tokens := TokensAt(s, m, key, now);
    if tokens >= 1.0 then
      v == m[key := Level(tokens - 1.0, now)] && answer == Answer(true, (tokens - 1.0).Floor, 0)
    else
      && v == m[key := Level(tokens, now)] && !answer.allowed && answer.remaining == 0
      && IsLeastWait(tokens, Rate(s), answer.retryAfter)
  }

  /** There is a whole token after this time. */
  predicate Suffices(tokens: real, rate: real, time: real) {
    tokens + time * rate >= 1.0
  }

  predicate IsLeastWait(tokens: real, rate: real, wait: int) {
    wait >= 1 && Suffices(tokens, rate, wait as real) && (wait > 1 ==> !Suffices(tokens, rate, wait as real - 1.0))
  }

  /** A client without a bucket makes the map drop old buckets, and shares a bucket when it is
      full. */
  ghost predicate IsConsumed(s: Settings, m: Levels, client: string, now: real, v: Levels, answer: Answer)
    requires s.Valid()
  {
    if client in m then IsCharged(s, m, client, now, v, answer)
    else
      var recent := Recent(s, m, now);
      IsCharged(s, recent, if |recent| < s.maxClients then client else "__overflow__", now, v, answer)
  }

  lemma CompareProducts(a: real, b: real, r: real)
    requires r > 0.0
    ensures a * r >= b * r <==> a >= b
  {
    assert (a - b) * r >= 0.0 <==> a - b >= 0.0;
  }

  lemma SufficesFrom(tokens: real, rate: real, time: real)
    requires rate > 0.0
    ensures Suffices(tokens, rate, time) <==> time >= (1.0 - tokens) / rate
  {
    var q := (1.0 - tokens) / rate;
    assert q * rate == 1.0 - tokens;
    CompareProducts(time, q, rate);
  }

  lemma WaitIsLeast(s: Settings, tokens: real)
    requires s.Valid() && tokens < 1.0
    ensures IsLeastWait(tokens, Rate(s), RetryAfter(s, tokens))
  {
    s.RefillPositive();
    assert s.Refill() == Rate(s);
    SufficesFrom(tokens, Rate(s), RetryAfter(s, tokens) as real);
    SufficesFrom(tokens, Rate(s), RetryAfter(s, tokens) as real - 1.0);
  }

  /** What is in a bucket at `now`, from the settings. */
  lemma RefilledIs(s: Settings, m: Levels, key: string, now: real)
    requires s.Valid()
    ensures Refilled(s, if key in m then m[key] else Level(s.Capacity(), now), now) == TokensAt(s, m, key, now)
  {
    assert s.Refill() == Rate(s);
    assert 0.0 * Rate(s) == 0.0;
  }

  lemma ChargeOutcome(s: Settings, m: Levels, key: string, now: real)
    requires s.Valid()
    ensures var o := ChargeAt(s, m, key, now); IsCharged(s, m, key, now, o.levels, o.answer)
  {
    RefilledIs(s, m, key, now);
    if TokensAt(s, m, key, now) < 1.0 { WaitIsLeast(s, TokensAt(s, m, key, now)); }
  }

  lemma ConsumeOutcome(s: Settings, m: Levels, client: string, now: real)
    requires s.Valid()
    ensures var o := Consume(s, m, client, now); IsConsumed(s, m, client, now, o.levels, o.answer)
  {
    assert Prune(s, m, now) == Recent(s, m, now);
    var o := Consume(s, m, client, now);
    ChargeOutcome(s, if client in m then m else Prune(s, m, now), o.key, now);
  }

  /** Creating the bucket first and charging it then is charging it. */
  lemma ChargeCreated(s: Settings, m: Levels, key: string, now: real)
    requires s.Valid()
    ensures ChargeAt(s, if key in m then m else m[key := Level(s.Capacity(), now)], key, now)
         == ChargeAt(s, m, key, now)
  {
  }

  // ---------------------------------------------------------------- implementation

  class TokenBucket {
    var tokens: real
    var updatedAt: real

    constructor (tokens: real, updatedAt: real)
      ensures this.tokens == tokens && this.updatedAt == updatedAt
    {
      this.tokens := tokens;
      this.updatedAt := updatedAt;
    }

    ghost function View(): Level
      reads this
    {
      Level(tokens, updatedAt)
    }

    /** The part of a request that works on one bucket. */
    method Draw(settings: Settings, now: real) returns (answer: Answer)
      requires settings.Valid()
      modifies this
      ensures View() == Charge(settings, old(View()), now).0
      ensures answer == Charge(settings, old(View()), now).1
    {
      var capacity := settings.Capacity();
      var refillPerSecond := settings.Refill();
      var elapsed := Max(0.0, now - updatedAt);
      tokens := Min(capacity, tokens + elapsed * refillPerSecond);
      updatedAt := now;
      assert tokens == Refilled(settings, old(View()), now);
      if tokens < 1.0 {
        settings.RefillPositive();
        var wait := Ceiling((1.0 - tokens) / refillPerSecond);
        assert (if wait > 1 then wait else 1) == RetryAfter(settings, tokens);
        return Answer(false, 0, if wait > 1 then wait else 1);
      }
      tokens := tokens - 1.0;
      return Answer(true, tokens.Floor, 0);
    }
  }

  class Limiter {
    const settings: Settings
    var buckets: map<string, TokenBucket>

    ghost predicate Valid()
      reads this
    {
      && settings.Valid()
      && forall j, k :: j in buckets && k in buckets && buckets[j] == buckets[k] ==> j == k
    }

    ghost function View(): Levels
      reads this, buckets.Values
    {
      map k | k in buckets :: buckets[k].View()
    }

    constructor (settings: Settings)
      requires settings.Valid()
      ensures Valid() && View() == map[] && this.settings == settings
    {
      this.settings := settings;
      buckets := map[];
    }

    method ConsumeToken(client: string, now: real) returns (answer: Answer)
      requires Valid()
      modifies this, buckets.Values
      ensures Valid() && fresh(buckets.Values - old(buckets.Values))
      ensures View() == Consume(settings, old(View()), client, now).levels
      ensures answer == Consume(settings, old(View()), client, now).answer
      ensures IsConsumed(settings, old(View()), client, now, View(), answer)
    {
      var key := client;
      ghost var before := View();
      if key !in buckets {
        key := AddBucket(client, now);
      }
      answer := DrawAt(key, now);
      ChargeCreated(settings, Prune(settings, before, now), key, now);
      ConsumeOutcome(settings, before, client, now);
    }

    method DrawAt(key: string, now: real) returns (answer: Answer)
      requires Valid() && key in buckets
      modifies buckets[key]
      ensures View() == ChargeAt(settings, old(View()), key, now).levels
      ensures answer == ChargeAt(settings, old(View()), key, now).answer
    {
      var bucket := buckets[key];
      answer := bucket.Draw(settings, now);
      assert forall k :: k in buckets && k != key ==> buckets[k].View() == old(buckets[k].View());
    }

    /** The path of a client without a bucket: prune, fall back to the shared bucket
        when the map is full, and create the bucket unless it is there. */
    method AddBucket(client: string, now: real) returns (key: string)
      requires Valid() && client !in buckets
      modifies this`buckets
      ensures Valid() && fresh(buckets.Values - old(buckets.Values))
      ensures key == if TakesOverflow(settings, old(View()), client, now) then OVERFLOW else client
      ensures var p := Prune(settings, old(View()), now);
              key in buckets && View() == if key in p then p else p[key := Level(settings.Capacity(), now)]
    {
      PruneBuckets(now);
      assert buckets.Keys == View().Keys;
      key := client;
      if |buckets| >= settings.maxClients {
        key := OVERFLOW;
      }
      if key !in buckets {
        var created := new TokenBucket(settings.requests as real, now);
        buckets := buckets[key := created];
      }
    }

    method PruneBuckets(now: real)
      requires Valid()
      modifies this`buckets
      ensures Valid() && buckets.Values <= old(buckets.Values)
      ensures View() == Prune(settings, old(View()), now)
    {
      var staleAfter := 2.0 * settings.windowSeconds as real;
      var stale := set k | k in buckets && now - buckets[k].updatedAt > staleAfter;
      buckets := buckets - stale;
    }
  }
}
