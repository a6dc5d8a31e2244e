/** Runs of the limiter: pruning cannot be seen, the map stays bounded, no bucket gives
    more than its rate, and the retry hint is exact. */
module RateLimitLaws {
  import opened Sequences
  import opened RateLimiting

  /** One request of a run: the map it found and what it did. */
  datatype Step = Step(client: string, now: real, before: Levels, outcome: Outcome)

  predicate Performed(s: Settings, x: Step)
    requires s.Valid()
  {
    x.outcome == Consume(s, x.before, x.client, x.now)
  }

  /** Step `i` starts from the map that step `i - 1` left. */
  predicate Linked(run: seq<Step>, i: int)
    requires 0 < i < |run|
  {
    run[i].before == run[i - 1].outcome.levels
  }

  predicate ClockAdvances(run: seq<Step>, i: int)
    requires 0 < i < |run|
  {
    run[i - 1].now <= run[i].now
  }

  /** Requests one after the other, from the empty map. */
  predicate Chain(s: Settings, run: seq<Step>)
    requires s.Valid()
  {
    && (run != [] ==> run[0].before == map[])
    && (forall i {:trigger Performed(s, run[i])} :: 0 <= i < |run| ==> Performed(s, run[i]))
    && (forall i {:trigger Linked(run, i)} :: 0 < i < |run| ==> Linked(run, i))
  }

  /** A chain under a clock that never runs backwards. */
  predicate Run(s: Settings, run: seq<Step>)
    requires s.Valid()
  {
    Chain(s, run) && forall i {:trigger ClockAdvances(run, i)} :: 0 < i < |run| ==> ClockAdvances(run, i)
  }

  /** Every bucket was touched by `now` and holds between zero and the capacity. */
  predicate Sound(s: Settings, m: Levels, now: real) {
    forall k :: k in m ==> m[k].updatedAt <= now && 0.0 <= m[k].tokens <= s.Capacity()
  }

  lemma RefilledRange(s: Settings, level: Level, now: real)
    requires s.Valid() && 0.0 <= level.tokens <= s.Capacity()
    ensures level.tokens <= Refilled(s, level, now) <= s.Capacity()
  {
    s.RefillFacts();
    assert Max(0.0, now - level.updatedAt) * s.Refill() >= 0.0;
  }

  lemma ChargeSound(s: Settings, m: Levels, key: string, now: real)
    requires s.Valid() && Sound(s, m, now)
    ensures Sound(s, ChargeAt(s, m, key, now).levels, now)
  {
    if key in m { RefilledRange(s, m[key], now); }
    RefilledRange(s, Level(s.Capacity(), now), now);
  }

  lemma {:induction false} RunSound(s: Settings, run: seq<Step>, i: nat)
    requires s.Valid() && Run(s, run) && i < |run|
    ensures Sound(s, run[i].before, run[i].now)
    ensures Sound(s, run[i].outcome.levels, run[i].now)
  {
    if i == 0 {
    } else {
      RunSound(s, run, i - 1);
      assert Linked(run, i) && ClockAdvances(run, i);
    }
    var m, now := run[i].before, run[i].now;
    assert Performed(s, run[i]);
    ChargeSound(s, m, run[i].client, now);
    ChargeSound(s, Prune(s, m, now), run[i].outcome.key, now);
  }

  // ---------------------------------------------------------------- pruning

  /** A run of the limiter that never prunes and never fills. */
  predicate IdealRun(s: Settings, run: seq<Step>)
    requires s.Valid()
  {
    && (run != [] ==> run[0].before == map[])
    && (forall i :: 0 <= i < |run| ==> run[i].outcome == ChargeAt(s, run[i].before, run[i].client, run[i].now))
    && (forall i {:trigger Linked(run, i)} :: 0 < i < |run| ==> Linked(run, i))
  }

  predicate SameCalls(run: seq<Step>, ideal: seq<Step>) {
    && |run| == |ideal|
    && forall i :: 0 <= i < |run| ==> run[i].client == ideal[i].client && run[i].now == ideal[i].now
  }

  predicate NeverOverflows(s: Settings, run: seq<Step>) {
    forall i :: 0 <= i < |run| ==> !TakesOverflow(s, run[i].before, run[i].client, run[i].now)
  }

  /** The buckets that are held are the ideal ones; those that are not are stale. */
  predicate Agree(s: Settings, m: Levels, ideal: Levels, now: real) {
    && (forall k :: k in m ==> k in ideal && m[k] == ideal[k])
    && (forall k :: k in ideal && k !in m ==> Stale(s, ideal[k], now))
  }

  /** A stale bucket has refilled to the brim. */
  lemma StaleIsFull(s: Settings, level: Level, now: real)
    requires s.Valid() && 0.0 <= level.tokens && Stale(s, level, now)
    ensures Refilled(s, level, now) == s.Capacity()
    ensures Charge(s, level, now) == Charge(s, Level(s.Capacity(), now), now)
  {
    s.RefillFacts();
    var elapsed := now - level.updatedAt;
    assert elapsed * s.Refill() >= s.Window() * s.Refill();
    assert Refilled(s, Level(s.Capacity(), now), now) == s.Capacity();
  }

  lemma AgreeStep(s: Settings, m: Levels, ideal: Levels, client: string, now: real)
    requires s.Valid() && Sound(s, ideal, now) && Agree(s, m, ideal, now)
    requires !TakesOverflow(s, m, client, now)
    ensures Agree(s, Consume(s, m, client, now).levels, ChargeAt(s, ideal, client, now).levels, now)
    ensures Consume(s, m, client, now).answer == ChargeAt(s, ideal, client, now).answer
  {
    if client !in m && client in ideal {
      StaleIsFull(s, ideal[client], now);
    }
  }

  /** Along a run that never takes the shared bucket, every answer is that of a map
      that never prunes and never fills. */
  lemma {:induction false} PruningInvisible(s: Settings, run: seq<Step>, ideal: seq<Step>, i: nat)
    requires s.Valid() && Run(s, run) && IdealRun(s, ideal) && SameCalls(run, ideal)
    requires NeverOverflows(s, run) && i < |run|
    ensures run[i].outcome.answer == ideal[i].outcome.answer
    ensures Agree(s, run[i].outcome.levels, ideal[i].outcome.levels, run[i].now)
    ensures Sound(s, ideal[i].outcome.levels, run[i].now)
  {
    var now := run[i].now;
    if i == 0 {
    } else {
      PruningInvisible(s, run, ideal, i - 1);
      assert Linked(run, i) && Linked(ideal, i) && ClockAdvances(run, i);
    }
    assert Performed(s, run[i]);
    AgreeStep(s, run[i].before, ideal[i].before, run[i].client, now);
    ChargeSound(s, ideal[i].before, run[i].client, now);
  }

  // ---------------------------------------------------------------- size

  predicate Bounded(s: Settings, m: Levels) {
    |m.Keys - {OVERFLOW}| <= s.maxClients
  }

  lemma AddKeyBounded(s: Settings, keys: set<string>, key: string)
    requires |keys - {OVERFLOW}| <= s.maxClients
    requires key in keys || key == OVERFLOW || |keys| < s.maxClients
    ensures |keys + {key} - {OVERFLOW}| <= s.maxClients
  {
    if key in keys || key == OVERFLOW {
      assert keys + {key} - {OVERFLOW} == keys - {OVERFLOW};
    } else {
      SubsetSize(keys + {key} - {OVERFLOW}, keys + {key});
    }
  }

  /** The map that the request is charged to. */
  function Kept(s: Settings, m: Levels, client: string, now: real): Levels {
    if client in m then m else Prune(s, m, now)
  }

  lemma ConsumeKeys(s: Settings, m: Levels, client: string, now: real)
    requires s.Valid()
    ensures var o, p := Consume(s, m, client, now), Kept(s, m, client, now);
            && o.levels.Keys == p.Keys + {o.key} && p.Keys <= m.Keys
            && (o.key in p || o.key == OVERFLOW || |p| < s.maxClients)
  {
  }

  lemma ConsumeBounded(s: Settings, m: Levels, client: string, now: real)
    requires s.Valid() && Bounded(s, m)
    ensures Bounded(s, Consume(s, m, client, now).levels)
  {
    var keys := Kept(s, m, client, now).Keys;
    ConsumeKeys(s, m, client, now);
    SubsetSize(keys - {OVERFLOW}, m.Keys - {OVERFLOW});
    AddKeyBounded(s, keys, Consume(s, m, client, now).key);
  }

  lemma EmptyBounded(s: Settings)
    ensures Bounded(s, map[])
  {
    var none: Levels := map[];
    assert none.Keys - {OVERFLOW} == {};
  }

  lemma BoundedSize(s: Settings, m: Levels)
    requires Bounded(s, m)
    ensures |m| <= s.maxClients + 1
  {
    SubsetSize(m.Keys, (m.Keys - {OVERFLOW}) + {OVERFLOW});
    assert |m.Keys| == |m|;
  }

  lemma StepBounded(s: Settings, x: Step)
    requires s.Valid() && Performed(s, x) && Bounded(s, x.before)
    ensures Bounded(s, x.outcome.levels)
  {
    ConsumeBounded(s, x.before, x.client, x.now);
  }

  /** In every run, whatever the clock does, the map holds at most one bucket more
      than the limit. */
  lemma {:induction false} SizeBound(s: Settings, run: seq<Step>, i: nat)
    requires s.Valid() && Chain(s, run) && i < |run|
    ensures Bounded(s, run[i].outcome.levels)
    ensures |run[i].outcome.levels| <= s.maxClients + 1
  {
    var x := run[i];
    assert Performed(s, x);
    if i > 0 {
      SizeBound(s, run, i - 1);
      assert Linked(run, i);
    } else {
      EmptyBounded(s);
    }
    StepBounded(s, x);
    BoundedSize(s, x.outcome.levels);
  }

  // ---------------------------------------------------------------- rate

  /** Tokens that bucket `key` could give at time `now`; a bucket that is not held
      would be created full. */
  function Credit(s: Settings, m: Levels, key: string, now: real): real
    requires s.Valid()
  {
    if key in m then Refilled(s, m[key], now) else s.Capacity()
  }

  /** Requests that steps `i` to `j - 1` admitted against bucket `key`. */
  function Admitted(run: seq<Step>, i: nat, j: nat, key: string): nat
    requires i <= j <= |run|
  {
    if i == j then 0 else Admitted(run, i, j - 1, key) + Spent(run[j - 1].outcome, key)
  }

  function Spent(o: Outcome, key: string): nat {
    if o.answer.allowed && o.key == key then 1 else 0
  }

  lemma CreditRange(s: Settings, m: Levels, key: string, now: real)
    requires s.Valid() && Sound(s, m, now)
    ensures 0.0 <= Credit(s, m, key, now) <= s.Capacity()
  {
    if key in m { RefilledRange(s, m[key], now); }
  }

  /** A request changes the credit of a bucket only by the token it takes from it. */
  lemma CreditStep(s: Settings, m: Levels, client: string, key: string, now: real)
    requires s.Valid() && Sound(s, m, now)
    ensures var o := Consume(s, m, client, now);
            Credit(s, o.levels, key, now) == Credit(s, m, key, now) - Spent(o, key) as real
  {
    if key in m {
      RefilledRange(s, m[key], now);
      if Stale(s, m[key], now) { StaleIsFull(s, m[key], now); }
    }
    assert Refilled(s, Level(s.Capacity(), now), now) == s.Capacity();
    var o := Consume(s, m, client, now);
    if o.key == key {
      var level := o.levels[key];
      assert level.updatedAt == now && Refilled(s, level, now) == Min(s.Capacity(), level.tokens);
    }
  }

  /** Waiting earns at most the refill rate. */
  lemma CreditGrows(s: Settings, m: Levels, key: string, before: real, now: real)
    requires s.Valid() && Sound(s, m, before) && before <= now
    ensures Credit(s, m, key, now) <= Credit(s, m, key, before) + (now - before) * s.Refill()
  {
    if key in m { Distribute(m[key].updatedAt, before, now, s.Refill()); }
    s.RefillFacts();
    assert (now - before) * s.Refill() >= 0.0;
  }

  lemma Distribute(a: real, b: real, c: real, rate: real)
    ensures (b - a) * rate + (c - b) * rate == (c - a) * rate
  {
  }

  /** The credit that each step finds. */
  function Credits(s: Settings, run: seq<Step>, key: string): (c: seq<real>)
    requires s.Valid()
    ensures |c| == |run|
  {
    seq(|run|, k requires 0 <= k < |run| => Credit(s, run[k].before, key, run[k].now))
  }

  /** From step `k` to the next, the credit loses what is taken and gains at most the
      refill. */
  predicate CoveredAt(run: seq<Step>, credit: seq<real>, rate: real, k: nat, key: string)
    requires k + 1 < |run| == |credit|
  {
    credit[k + 1] <= credit[k] - Spent(run[k].outcome, key) as real + (run[k + 1].now - run[k].now) * rate
  }

  lemma StepCredit(s: Settings, run: seq<Step>, k: nat, key: string)
    requires s.Valid() && Run(s, run) && k < |run|
    ensures Credit(s, run[k].outcome.levels, key, run[k].now)
         == Credits(s, run, key)[k] - Spent(run[k].outcome, key) as real
  {
    assert Performed(s, run[k]);
    RunSound(s, run, k);
    CreditStep(s, run[k].before, run[k].client, key, run[k].now);
  }

  lemma RefillCredit(s: Settings, run: seq<Step>, k: nat, key: string)
    requires s.Valid() && Run(s, run) && k + 1 < |run|
    ensures Credits(s, run, key)[k + 1]
         <= Credit(s, run[k].outcome.levels, key, run[k].now) + (run[k + 1].now - run[k].now) * s.Refill()
  {
    assert Linked(run, k + 1) && ClockAdvances(run, k + 1);
    RunSound(s, run, k);
    CreditGrows(s, run[k].outcome.levels, key, run[k].now, run[k + 1].now);
  }

  lemma CreditsCovered(s: Settings, run: seq<Step>, k: nat, key: string)
    requires s.Valid() && Run(s, run) && k + 1 < |run|
    ensures CoveredAt(run, Credits(s, run, key), s.Refill(), k, key)
  {
    StepCredit(s, run, k, key);
    RefillCredit(s, run, k, key);
  }

  /** Adds the steps up: what they admit is covered by the credit that is gone and the
      refill since. */
  lemma {:induction false} Telescope(run: seq<Step>, credit: seq<real>, rate: real, i: nat, j: nat, key: string)
    requires i <= j < |run| == |credit|
    requires forall k :: i <= k < j ==> CoveredAt(run, credit, rate, k, key)
    ensures Admitted(run, i, j, key) as real <= credit[i] - credit[j] + (run[j].now - run[i].now) * rate
  {
    if i < j {
      var k := j - 1;
      Telescope(run, credit, rate, i, k, key);
      Distribute(run[i].now, run[k].now, run[k + 1].now, rate);
      assert CoveredAt(run, credit, rate, k, key);
    } else {
      Distribute(run[i].now, run[i].now, run[i].now, rate);
    }
  }

  lemma AdmittedBound(run: seq<Step>, credit: seq<real>, rate: real, capacity: real, i: nat, j: nat, key: string)
    requires i <= j < |run| == |credit|
    requires forall k :: i <= k < j ==> CoveredAt(run, credit, rate, k, key)
    requires credit[i] <= capacity && Spent(run[j].outcome, key) as real <= credit[j]
    ensures Admitted(run, i, j + 1, key) as real <= capacity + (run[j].now - run[i].now) * rate
  {
    Telescope(run, credit, rate, i, j, key);
  }

  /** The requests of an interval admitted against any one bucket number at most the
      capacity plus the refill of the interval, across pruning and re-creation. */
  lemma RateBound(s: Settings, run: seq<Step>, i: nat, j: nat, key: string)
    requires s.Valid() && Run(s, run) && i <= j < |run|
    ensures Admitted(run, i, j + 1, key) as real <= s.Capacity() + (run[j].now - run[i].now) * s.Refill()
  {
    var credit, rate := Credits(s, run, key), s.Refill();
    forall k | i <= k < j ensures CoveredAt(run, credit, rate, k, key) {
      CreditsCovered(s, run, k, key);
    }
    CreditsRange(s, run, i, key);
    CreditsRange(s, run, j, key);
    AdmittedBound(run, credit, rate, s.Capacity(), i, j, key);
  }

  lemma CreditsRange(s: Settings, run: seq<Step>, k: nat, key: string)
    requires s.Valid() && Run(s, run) && k < |run|
    ensures Spent(run[k].outcome, key) as real <= Credits(s, run, key)[k] <= s.Capacity()
  {
    LastCovered(s, run, k, key);
    RunSound(s, run, k);
    CreditRange(s, run[k].before, key, run[k].now);
  }

  /** What the last step takes is covered by the credit it finds. */
  lemma LastCovered(s: Settings, run: seq<Step>, j: nat, key: string)
    requires s.Valid() && Run(s, run) && j < |run|
    ensures Spent(run[j].outcome, key) as real <= Credit(s, run[j].before, key, run[j].now)
  {
    assert Performed(s, run[j]);
    RunSound(s, run, j);
    CreditStep(s, run[j].before, run[j].client, key, run[j].now);
    CreditRange(s, run[j].outcome.levels, key, run[j].now);
  }

  // ---------------------------------------------------------------- a burst

  /** The map after `n` requests of one client at one moment. */
  function Burst(s: Settings, m: Levels, client: string, now: real, n: nat): Levels
    requires s.Valid()
  {
    if n == 0 then m else Consume(s, Burst(s, m, client, now, n - 1), client, now).levels
  }

  /** A client that is new to a map with room gets exactly `requests` requests at once, and is
      told how many are left, down to none. */
  lemma {:induction false} FreshBurst(s: Settings, m: Levels, client: string, now: real, n: nat)
    requires s.Valid() && client !in m && |Recent(s, m, now)| < s.maxClients
    ensures var answer := Consume(s, Burst(s, m, client, now, n), client, now).answer;
            && answer.allowed == (n < s.requests)
            && answer.remaining == if n < s.requests then s.requests - 1 - n else 0
    ensures n > 0 ==> HoldsLeft(Burst(s, m, client, now, n), client, now, if n < s.requests then s.requests - n else 0)
  {
    if n == 0 {
      BurstFirst(s, m, client, now);
    } else {
      FreshBurst(s, m, client, now, n - 1);
      BurstNext(s, m, client, now, n);
    }
  }

  lemma BurstFirst(s: Settings, m: Levels, client: string, now: real)
    requires s.Valid() && client !in m && |Recent(s, m, now)| < s.maxClients
    ensures var answer := Consume(s, m, client, now).answer; answer.allowed && answer.remaining == s.requests - 1
  {
    assert Prune(s, m, now) == Recent(s, m, now);
    FullAnswer(s, Level(s.Capacity(), now), now, s.requests);
  }

  /** The client's bucket holds so many tokens. */
  predicate HoldsLeft(m: Levels, client: string, now: real, left: nat) {
    client in m && m[client] == Level(left as real, now)
  }

  lemma BurstNext(s: Settings, m: Levels, client: string, now: real, n: nat)
    requires s.Valid() && n > 0 && client !in m && |Recent(s, m, now)| < s.maxClients
    requires n > 1 ==> HoldsLeft(Burst(s, m, client, now, n - 1), client, now, if n - 1 < s.requests then s.requests - (n - 1) else 0)
    ensures var left := if n < s.requests then s.requests - n else 0;
            HoldsLeft(Burst(s, m, client, now, n), client, now, left)
    ensures var answer := Consume(s, Burst(s, m, client, now, n), client, now).answer;
            && answer.allowed == (n < s.requests)
            && answer.remaining == if n < s.requests then s.requests - 1 - n else 0
  {
    var before := Burst(s, m, client, now, n - 1);
    assert Prune(s, m, now) == Recent(s, m, now);
    var left := if n - 1 < s.requests then s.requests - (n - 1) else 0;
    FullAnswer(s, Level(left as real, now), now, left);
    var after := if n < s.requests then s.requests - n else 0;
    FullAnswer(s, Level(after as real, now), now, after);
  }

  lemma FullAnswer(s: Settings, level: Level, now: real, left: nat)
    requires s.Valid() && left <= s.requests && level == Level(left as real, now)
    ensures var (next, answer) := Charge(s, level, now);
            && answer.allowed == (left > 0) && answer.remaining == (if left > 0 then left - 1 else 0)
            && next == Level(if left > 0 then (left - 1) as real else 0.0, now)
  {
    assert Refilled(s, level, now) == left as real by { assert 0.0 * s.Refill() == 0.0; }
  }

  // ---------------------------------------------------------------- retry hint

  /** The wait is the least whole number of seconds, at least one, that brings a
      level below one token to one token, and it is at most the window. */
  lemma RetryAfterExact(s: Settings, tokens: real, n: int)
    requires s.Valid() && 0.0 <= tokens < 1.0
    ensures 1 <= RetryAfter(s, tokens) <= s.windowSeconds
    ensures tokens + n as real * s.Refill() >= 1.0 <==> n >= RetryAfter(s, tokens)
  {
    s.RefillFacts();
    CeilingOfRatio(1.0 - tokens, s.Refill(), n);
    CeilingOfRatio(1.0 - tokens, s.Refill(), s.windowSeconds);
  }

  lemma CeilingOfRatio(missing: real, r: real, n: int)
    requires r > 0.0 && missing > 0.0
    ensures Ceiling(missing / r) >= 1
    ensures n as real * r >= missing <==> n >= Ceiling(missing / r)
  {
    var q := missing / r;
    assert q * r == missing;
    CompareProducts(n as real, q, r);
    CompareProducts(0.0, q, r);
  }

  /** The bucket is held and has only refilled since `since`. */
  predicate Waiting(s: Settings, m: Levels, key: string, tokens: real, since: real, now: real)
    requires s.Valid()
  {
    key in m && OnlyRefilled(s, m[key], tokens, since, now)
  }

  predicate OnlyRefilled(s: Settings, level: Level, tokens: real, since: real, now: real)
    requires s.Valid()
  {
    && since <= level.updatedAt <= now
    && level.tokens == tokens + (level.updatedAt - since) * s.Refill()
    && level.tokens < 1.0
  }

  /** What a request does to a bucket that is held and not stale. */
  lemma HeldBucket(s: Settings, m: Levels, key: string, client: string, now: real)
    requires s.Valid() && key in m && !Stale(s, m[key], now)
    ensures var o := Consume(s, m, client, now);
            && key in o.levels
            && o.levels[key] == (if o.key == key then Charge(s, m[key], now).0 else m[key])
            && (o.key == key ==> o.answer == Charge(s, m[key], now).1)
  {
  }

  /** The level at `now` of a held bucket from which nothing was taken. */
  lemma WaitingLevel(s: Settings, level: Level, tokens: real, since: real, now: real)
    requires s.Valid() && since <= level.updatedAt <= now
    requires level.tokens == tokens + (level.updatedAt - since) * s.Refill()
    ensures Refilled(s, level, now) == Min(s.Capacity(), tokens + (now - since) * s.Refill())
  {
    Distribute(since, level.updatedAt, now, s.Refill());
  }

  /** The bucket waits, or was dropped when it had long been full again. */
  predicate WaitingOrGone(s: Settings, m: Levels, key: string, tokens: real, since: real, now: real)
    requires s.Valid()
  {
    Waiting(s, m, key, tokens, since, now) || (key !in m && now > since + 2.0 * s.Window())
  }

  /** A bucket that is not held, or is stale, is full. */
  lemma FullAdmits(s: Settings, m: Levels, key: string, now: real)
    requires s.Valid() && (key in m ==> Stale(s, m[key], now) && m[key].tokens >= 0.0)
    ensures ChargeAt(s, m, key, now).answer.allowed
  {
    s.RefillFacts();
    if key in m { StaleIsFull(s, m[key], now); }
  }

  lemma WaitingStep(s: Settings, m: Levels, key: string, tokens: real, since: real, before: real, client: string, now: real)
    requires s.Valid() && 0.0 <= tokens && WaitingOrGone(s, m, key, tokens, since, before)
    requires since <= before <= now
    requires Spent(Consume(s, m, client, now), key) == 0
    ensures WaitingOrGone(s, Consume(s, m, client, now).levels, key, tokens, since, now)
  {
    if key !in m {
      FullAdmits(s, m, key, now);
    } else if Stale(s, m[key], now) {
      assert (m[key].updatedAt - since) * s.Refill() >= 0.0 by { s.RefillFacts(); }
      FullAdmits(s, m, key, now);
      FullAdmits(s, Prune(s, m, now), key, now);
    } else {
      HeldBucket(s, m, key, client, now);
      if Consume(s, m, client, now).key == key {
        RejectedLevel(s, m[key], tokens, since, before, now);
      }
    }
  }

  /** A rejected request leaves the bucket with what it has refilled. */
  lemma RejectedLevel(s: Settings, level: Level, tokens: real, since: real, before: real, now: real)
    requires s.Valid() && OnlyRefilled(s, level, tokens, since, before) && before <= now
    requires !Charge(s, level, now).1.allowed
    ensures OnlyRefilled(s, Charge(s, level, now).0, tokens, since, now)
  {
    WaitingLevel(s, level, tokens, since, now);
  }

  lemma RejectedWaits(s: Settings, m: Levels, client: string, now: real)
    requires s.Valid() && Sound(s, m, now)
    requires !Consume(s, m, client, now).answer.allowed
    ensures var o := Consume(s, m, client, now);
            && o.key in o.levels && 0.0 <= o.levels[o.key].tokens < 1.0
            && o.answer.retryAfter == RetryAfter(s, o.levels[o.key].tokens)
            && Waiting(s, o.levels, o.key, o.levels[o.key].tokens, now, now)
  {
    ChargeSound(s, m, client, now);
    ChargeSound(s, Prune(s, m, now), Consume(s, m, client, now).key, now);
    assert (now - now) * s.Refill() == 0.0;
  }

  lemma {:induction false} WaitingRun(s: Settings, run: seq<Step>, i: nat, j: nat, key: string, tokens: real)
    requires s.Valid() && Run(s, run) && i <= j < |run|
    requires 0.0 <= tokens && Waiting(s, run[i].outcome.levels, key, tokens, run[i].now, run[i].now)
    requires Admitted(run, i, j + 1, key) == 0
    ensures WaitingOrGone(s, run[j].outcome.levels, key, tokens, run[i].now, run[j].now)
    ensures run[i].now <= run[j].now
    decreases j
  {
    if i < j {
      assert Admitted(run, i, j, key) == 0 && Spent(run[j].outcome, key) == 0;
      assert Linked(run, j) && ClockAdvances(run, j);
      WaitingRun(s, run, i, j - 1, key, tokens);
      assert Performed(s, run[j]);
      WaitingStep(s, run[j].before, key, tokens, run[i].now, run[j - 1].now, run[j].client, run[j].now);
    }
  }

  lemma ChargeAllowed(s: Settings, level: Level, now: real)
    requires s.Valid()
    ensures Charge(s, level, now).1.allowed <==> Refilled(s, level, now) >= 1.0
  {
  }

  /** A request on bucket `key`, created if it is not held in `m`, is admitted at `now`. */
  predicate WouldAdmit(s: Settings, m: Levels, key: string, now: real)
    requires s.Valid()
  {
    ChargeAt(s, m, key, now).answer.allowed
  }

  lemma HintOnHeld(s: Settings, m: Levels, key: string, tokens: real, since: real, before: real, n: nat)
    requires s.Valid() && 0.0 <= tokens < 1.0
    requires Waiting(s, m, key, tokens, since, before) && before <= since + n as real
    ensures WouldAdmit(s, m, key, since + n as real) <==> n >= RetryAfter(s, tokens)
  {
    var now := since + n as real;
    assert (now - since) * s.Refill() == n as real * s.Refill();
    RetryAfterExact(s, tokens, n);
    WaitingLevel(s, m[key], tokens, since, now);
    ChargeAllowed(s, m[key], now);
  }

  /** The same for a bucket that waits or is gone. */
  lemma HintExact(s: Settings, m: Levels, key: string, tokens: real, since: real, before: real, n: nat)
    requires s.Valid() && 0.0 <= tokens < 1.0
    requires WaitingOrGone(s, m, key, tokens, since, before) && before <= since + n as real
    ensures 1 <= RetryAfter(s, tokens) <= s.windowSeconds
    ensures WouldAdmit(s, m, key, since + n as real) <==> n >= RetryAfter(s, tokens)
  {
    RetryAfterExact(s, tokens, n);
    if key in m {
      HintOnHeld(s, m, key, tokens, since, before, n);
    } else {
      FullAdmits(s, m, key, since + n as real);
    }
  }

  lemma RejectedAt(s: Settings, run: seq<Step>, i: nat)
    requires s.Valid() && Run(s, run) && i < |run| && !run[i].outcome.answer.allowed
    ensures var o := run[i].outcome;
            && o.key in o.levels && 0.0 <= o.levels[o.key].tokens < 1.0
            && o.answer.retryAfter == RetryAfter(s, o.levels[o.key].tokens)
            && Waiting(s, o.levels, o.key, o.levels[o.key].tokens, run[i].now, run[i].now)
  {
    assert Performed(s, run[i]);
    RunSound(s, run, i);
    RejectedWaits(s, run[i].before, run[i].client, run[i].now);
  }

  /** Step `i` rejects a request, and the steps up to `j` take nothing from its bucket.
      Then, however long they last, a request on the bucket `n` seconds after the rejection
      is admitted if and only if `n` is at least the hint, which is between one second and
      the window.  The bucket is still held, unless it was dropped after two windows. */
  lemma RetryHintExact(s: Settings, run: seq<Step>, i: nat, j: nat, n: nat)
    requires s.Valid() && Run(s, run) && i <= j < |run|
    requires !run[i].outcome.answer.allowed
    requires Admitted(run, i, j + 1, run[i].outcome.key) == 0
    requires run[j].now <= run[i].now + n as real
    ensures var o := run[i].outcome;
            && 1 <= o.answer.retryAfter <= s.windowSeconds
            && (o.key in run[j].outcome.levels || run[j].now > run[i].now + 2.0 * s.Window())
            && (WouldAdmit(s, run[j].outcome.levels, o.key, run[i].now + n as real)
                <==> n >= o.answer.retryAfter)
  {
    var o := run[i].outcome;
    RejectedAt(s, run, i);
    WaitingRun(s, run, i, j, o.key, o.levels[o.key].tokens);
    HintExact(s, run[j].outcome.levels, o.key, o.levels[o.key].tokens, run[i].now, run[j].now, n);
  }
}
