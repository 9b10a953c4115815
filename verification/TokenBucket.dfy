/** The per-key token bucket limiter of the coordinator (internal/coord/ratelimit.go).
    Tokens and times (in seconds) are reals, and the clock never runs backwards. */
module TokenBucket {

  datatype Bucket = Bucket(tokens: real, lastTime: real)

  type Buckets = map<string, Bucket>

  /** The two parameters of a limiter: refill rate in tokens per second, and bucket size. */
  datatype Config = Config(rate: real, burst: real) {
    predicate Valid() {
      rate >= 0.0 && burst >= 0.0
    }
  }

  function Hourly(perHour: nat): Config {
    Config(perHour as real / 3600.0, perHour as real)
  }

  function Min(a: real, b: real): real {
    if a <= b then a else b
  }

  /** Tokens the refill adds between two instants. */
  function Earned(c: Config, start: real, end: real): real {
    (end - start) * c.rate
  }

  /** Tokens of a bucket after its lazy refill. */
  function Refilled(c: Config, b: Bucket, now: real): real {
    Min(b.tokens + Earned(c, b.lastTime, now), c.burst)
  }

  /** Tokens available to a key: an absent bucket counts as a full one. */
  function Level(c: Config, buckets: Buckets, key: string, now: real): real {
    if key in buckets then Refilled(c, buckets[key], now) else c.burst
  }

  /** One call of `Allow`. */
  function AllowNext(c: Config, buckets: Buckets, key: string, now: real): Buckets {
    var level := Level(c, buckets, key, now);
    buckets[key := Bucket(if level < 1.0 then level else level - 1.0, now)]
  }

  predicate IsAllowed(c: Config, buckets: Buckets, key: string, now: real) {
    Level(c, buckets, key, now) >= 1.0
  }

  /** Cleanup forgets the buckets whose refilled tokens reach 90% of the burst. */
  predicate IsForgotten(c: Config, b: Bucket, now: real) {
    b.tokens + Earned(c, b.lastTime, now) >= c.burst * 0.9
  }

  function CleanupNext(c: Config, buckets: Buckets, now: real): Buckets {
    map k | k in buckets && !IsForgotten(c, buckets[k], now) :: buckets[k]
  }

  ghost predicate Sane(c: Config, buckets: Buckets, now: real) {
    forall k :: k in buckets ==> 0.0 <= buckets[k].tokens <= c.burst && buckets[k].lastTime <= now
  }

  // ----- Histories -----

  /** A call of `Allow`, or a tick of the cleanup loop. */
  datatype Event = Call(key: string, now: real) | Cleanup(now: real)

  function Step(c: Config, buckets: Buckets, e: Event): Buckets {
    match e
    case Call(key, now) => AllowNext(c, buckets, key, now)
    case Cleanup(now) => CleanupNext(c, buckets, now)
  }

  function Run(c: Config, buckets: Buckets, events: seq<Event>): Buckets {
    if events == [] then buckets
    else Step(c, Run(c, buckets, events[..|events| - 1]), events[|events| - 1])
  }

  /** The events lie in order in the window from `start` to `end`. */
  predicate InWindow(events: seq<Event>, start: real, end: real) {
    if events == [] then start <= end
    else
      var last := events[|events| - 1].now;
      last <= end && InWindow(events[..|events| - 1], start, last)
  }

  /** How many of the calls for `key` were allowed. */
  function Allowed(c: Config, buckets: Buckets, events: seq<Event>, key: string): nat {
    if events == [] then 0
    else
      var before := events[..|events| - 1];
      var e := events[|events| - 1];
      Allowed(c, buckets, before, key)
      + if e.Call? && e.key == key && IsAllowed(c, Run(c, buckets, before), key, e.now) then 1 else 0
  }

  /** How many cleanups deleted the bucket of `key`. */
  function Deletions(c: Config, buckets: Buckets, events: seq<Event>, key: string): nat {
    if events == [] then 0
    else
      var before := events[..|events| - 1];
      var e := events[|events| - 1];
      var b := Run(c, buckets, before);
      Deletions(c, buckets, before, key)
      + if e.Cleanup? && key in b && key !in Step(c, b, e) then 1 else 0
  }

  // ----- Level arithmetic -----

  lemma EarnedSplits(c: Config, a: real, b: real, d: real)
    requires c.Valid() && a <= b <= d
    ensures Earned(c, a, d) == Earned(c, a, b) + Earned(c, b, d)
    ensures Earned(c, a, b) >= 0.0 && Earned(c, b, d) >= 0.0
  {
  }

  lemma LevelGrowth(c: Config, buckets: Buckets, key: string, t: real, now: real)
    requires c.Valid() && Sane(c, buckets, t) && t <= now
    ensures 0.0 <= Level(c, buckets, key, t) <= Level(c, buckets, key, now)
    ensures Level(c, buckets, key, now) <= Level(c, buckets, key, t) + Earned(c, t, now)
    ensures Level(c, buckets, key, now) <= c.burst
    ensures Level(c, buckets, key, now) ==
            Min(Level(c, buckets, key, t) + Earned(c, t, now), c.burst)
  {
    if key in buckets {
      EarnedSplits(c, buckets[key].lastTime, t, now);
    } else {
      EarnedSplits(c, t, t, now);
    }
  }

  lemma StepSane(c: Config, buckets: Buckets, e: Event, t: real)
    requires c.Valid() && Sane(c, buckets, t) && t <= e.now
    ensures Sane(c, Step(c, buckets, e), e.now)
  {
    if e.Call? {
      LevelGrowth(c, buckets, e.key, t, e.now);
    }
  }

  lemma {:induction false} RunSane(c: Config, buckets: Buckets, events: seq<Event>, start: real, end: real)
    requires c.Valid() && Sane(c, buckets, start) && InWindow(events, start, end)
    ensures start <= end && Sane(c, Run(c, buckets, events), end)
  {
    if events != [] {
      var e := events[|events| - 1];
      var before := events[..|events| - 1];
      RunSane(c, buckets, before, start, e.now);
      StepSane(c, Run(c, buckets, before), e, e.now);
    }
  }

  // What one event does to the level of a key, at the time of the event.
  lemma LevelAfterStep(c: Config, buckets: Buckets, e: Event, key: string)
    requires c.Valid() && Sane(c, buckets, e.now)
    ensures var was, next := Level(c, buckets, key, e.now), Level(c, Step(c, buckets, e), key, e.now);
            if e.Call? && e.key == key then
              next == if was >= 1.0 then was - 1.0 else was
            else if e.Cleanup? && key in buckets && IsForgotten(c, buckets[key], e.now) then
              next == c.burst && was >= c.burst * 0.9
            else next == was
  {
    LevelGrowth(c, buckets, key, e.now, e.now);
  }

  /** A tenth of a burst for each of `n` deletions. */
  function Credit(c: Config, n: nat): real {
    if n == 0 then 0.0 else Credit(c, n - 1) + 0.1 * c.burst
  }

  /** The potential argument behind the bound: allowed calls are paid for by the level at the start, by
      refill, and by the tenth of a burst each deletion may add. */
  lemma {:induction false} Potential(c: Config, buckets: Buckets, events: seq<Event>, key: string, start: real, end: real)
    requires c.Valid() && Sane(c, buckets, start) && InWindow(events, start, end)
    ensures Allowed(c, buckets, events, key) as real + Level(c, Run(c, buckets, events), key, end)
         <= Level(c, buckets, key, start) + Earned(c, start, end)
            + Credit(c, Deletions(c, buckets, events, key))
  {
    RunSane(c, buckets, events, start, end);
    if events == [] {
      LevelGrowth(c, buckets, key, start, end);
    } else {
      var e := events[|events| - 1];
      var before := events[..|events| - 1];
      var mid := Run(c, buckets, before);
      RunSane(c, buckets, before, start, e.now);
      Potential(c, buckets, before, key, start, e.now);
      LevelAfterStep(c, mid, e, key);
      StepSane(c, mid, e, e.now);
      LevelGrowth(c, Run(c, buckets, events), key, e.now, end);
      EarnedSplits(c, start, e.now, end);
    }
  }

  lemma {:induction false} CreditIsProduct(c: Config, n: nat)
    ensures Credit(c, n) == 0.1 * c.burst * n as real
  {
    if n > 0 {
      CreditIsProduct(c, n - 1);
    }
  }

  // The bound for a window opened in any sane state.
  lemma WindowBound(c: Config, b: Buckets, window: seq<Event>, key: string, start: real, end: real)
    requires c.Valid() && Sane(c, b, start) && InWindow(window, start, end)
    ensures Allowed(c, b, window, key) as real
            <= c.burst + Earned(c, start, end) + Credit(c, Deletions(c, b, window, key))
    ensures Sane(c, Run(c, b, window), end)
  {
    RunSane(c, b, window, start, end);
    Potential(c, b, window, key, start, end);
    LevelGrowth(c, b, key, start, start);
    LevelGrowth(c, Run(c, b, window), key, end, end);
  }

  // The same from the empty limiter.
  lemma HistoryBound(c: Config, past: seq<Event>, window: seq<Event>, key: string, origin: real, start: real, end: real)
    requires c.Valid() && InWindow(past, origin, start) && InWindow(window, start, end)
    ensures Allowed(c, Run(c, map[], past), window, key) as real
            <= c.burst + Earned(c, start, end) + Credit(c, Deletions(c, Run(c, map[], past), window, key))
    ensures Sane(c, Run(c, Run(c, map[], past), window), end)
  {
    RunSane(c, map[], past, origin, start);
    WindowBound(c, Run(c, map[], past), window, key, start, end);
  }

  lemma InNumbers(c: Config, allowed: nat, deletions: nat, start: real, end: real)
    requires allowed as real <= c.burst + Earned(c, start, end) + Credit(c, deletions)
    ensures allowed as real <= c.burst + (end - start) * c.rate + 0.1 * c.burst * deletions as real
  {
    CreditIsProduct(c, deletions);
  }

  /** For any key and any window of any history: allowed calls <= burst + rate * d + 0.1 * burst per
      cleanup deletion of that key in the window, and stored tokens stay in [0, burst]. */
  lemma TokenBucketBound(c: Config, past: seq<Event>, window: seq<Event>, key: string, origin: real, start: real, end: real)
      returns (allowed: nat, deleted: nat)
    requires c.Valid() && InWindow(past, origin, start) && InWindow(window, start, end)
    ensures allowed == Allowed(c, Run(c, map[], past), window, key) && deleted == Deletions(c, Run(c, map[], past), window, key)
    ensures allowed as real <= c.burst + (end - start) * c.rate + 0.1 * c.burst * deleted as real
    ensures var b := Run(c, Run(c, map[], past), window); forall k :: k in b ==> 0.0 <= b[k].tokens <= c.burst
  {
    HistoryBound(c, past, window, key, origin, start, end);
    allowed, deleted := Allowed(c, Run(c, map[], past), window, key), Deletions(c, Run(c, map[], past), window, key);
    InNumbers(c, allowed, deleted, start, end);
  }

  /** For the limiter that RateLimitHourly makes: in any window of d seconds a key is allowed at most perHour calls
      at once and perHour * d / 3600 more, and a tenth of perHour for each cleanup that deleted its bucket. */
  lemma HourlyBound(perHour: nat, past: seq<Event>, window: seq<Event>, key: string, origin: real, start: real, end: real)
      returns (allowed: nat, deleted: nat)
    requires InWindow(past, origin, start) && InWindow(window, start, end)
    ensures allowed == Allowed(Hourly(perHour), Run(Hourly(perHour), map[], past), window, key)
    ensures deleted == Deletions(Hourly(perHour), Run(Hourly(perHour), map[], past), window, key)
    ensures allowed as real <= perHour as real + (end - start) * (perHour as real / 3600.0) + 0.1 * perHour as real * deleted as real
  {
    var c := Hourly(perHour);
    HistoryBound(c, past, window, key, origin, start, end);
    allowed, deleted := Allowed(c, Run(c, map[], past), window, key), Deletions(c, Run(c, map[], past), window, key);
    HourlyNumbers(perHour, allowed, deleted, start, end);
  }

  lemma HourlyNumbers(perHour: nat, allowed: nat, deletions: nat, start: real, end: real)
    requires allowed as real <= Hourly(perHour).burst + Earned(Hourly(perHour), start, end) + Credit(Hourly(perHour), deletions)
    ensures allowed as real <= perHour as real + (end - start) * (perHour as real / 3600.0) + 0.1 * perHour as real * deletions as real
  {
    InNumbers(Hourly(perHour), allowed, deletions, start, end);
  }

  /** Calls for `key` allowed among the events from index `i` on. */
  function AllowedSince(c: Config, events: seq<Event>, key: string, i: nat): int
    requires i <= |events|
  {
    Allowed(c, map[], events, key) - Allowed(c, map[], events[..i], key)
  }

  /** Where the present level comes from: at some earlier instant `at`, before event number `i`, the
      bucket was full, and since then only refill and allowed calls changed it. */
  lemma {:induction false} LevelSinceFull(c: Config, events: seq<Event>, key: string, origin: real, now: real)
      returns (i: nat, at: real)
    requires c.Valid() && InWindow(events, origin, now)
    ensures i <= |events| && origin <= at <= now && InWindow(events[..i], origin, at)
    ensures Level(c, Run(c, map[], events), key, now)
            == c.burst + Earned(c, at, now) - AllowedSince(c, events, key, i) as real
  {
    RunSane(c, map[], events, origin, now);
    assert events[..|events|] == events;
    var level := Level(c, Run(c, map[], events), key, now);
    if level == c.burst || events == [] {
      i, at := |events|, now;
      assert Earned(c, now, now) == 0.0;
    } else {
      var e := events[|events| - 1];
      var before := events[..|events| - 1];
      var mid := Run(c, map[], before);
      RunSane(c, map[], before, origin, e.now);
      i, at := LevelSinceFull(c, before, key, origin, e.now);
      assert before[..i] == events[..i];
      LevelAfterStep(c, mid, e, key);
      StepSane(c, mid, e, e.now);
      LevelGrowth(c, Run(c, map[], events), key, e.now, now);
      EarnedSplits(c, at, e.now, now);
    }
  }

  /** No spurious denial: when a call is denied there is a window ending now over which one more allowed
      call would exceed burst + rate * d. */
  lemma DenialIsJustified(c: Config, events: seq<Event>, key: string, origin: real, now: real)
      returns (i: nat, at: real)
    requires c.Valid() && InWindow(events, origin, now)
    requires !IsAllowed(c, Run(c, map[], events), key, now)
    ensures i <= |events| && origin <= at <= now && InWindow(events[..i], origin, at)
    ensures AllowedSince(c, events, key, i) as real + 1.0 > c.burst + (now - at) * c.rate
  {
    i, at := LevelSinceFull(c, events, key, origin, now);
    OverInNumbers(c, AllowedSince(c, events, key, i), at, now);
  }

  lemma OverInNumbers(c: Config, allowed: int, start: real, end: real)
    ensures allowed as real + 1.0 > c.burst + Earned(c, start, end) <==> allowed as real + 1.0 > c.burst + (end - start) * c.rate
  {
  }

  /** The whole tokens `Remaining` reports. */
  function RemainingOf(c: Config, buckets: Buckets, key: string, now: real): int {
    Level(c, buckets, key, now).Floor
  }

  /** `Remaining` predicts `Allow` at the same instant: a call is allowed exactly when at least one token
      remains, and it lowers the remaining count by one exactly when it is allowed. */
  lemma RemainingPredicts(c: Config, buckets: Buckets, key: string, now: real)
    requires c.Valid() && Sane(c, buckets, now)
    ensures IsAllowed(c, buckets, key, now) <==> RemainingOf(c, buckets, key, now) >= 1
    ensures RemainingOf(c, AllowNext(c, buckets, key, now), key, now)
            == RemainingOf(c, buckets, key, now) - if IsAllowed(c, buckets, key, now) then 1 else 0
  {
    LevelGrowth(c, buckets, key, now, now);
    LevelAfterStep(c, buckets, Call(key, now), key);
  }

  /** Calls for one key never change what another key may do. */
  lemma KeysAreIndependent(c: Config, buckets: Buckets, key: string, other: string, now: real, later: real)
    requires key != other
    ensures Level(c, AllowNext(c, buckets, key, now), other, later) == Level(c, buckets, other, later)
  {
  }

  class RateLimiter {
    var buckets: Buckets
    const config: Config

    constructor RateLimitHourly(perHour: nat)
      ensures buckets == map[] && config == Hourly(perHour) && config.Valid()
      ensures config.burst == perHour as real && config.rate * 3600.0 == perHour as real
    {
      buckets := map[];
      config := Hourly(perHour);
    }

    method Allow(key: string, now: real) returns (allowed: bool, remaining: int)
      requires config.Valid() && Sane(config, buckets, now)
      modifies this
      ensures buckets == AllowNext(config, old(buckets), key, now) && Sane(config, buckets, now)
      ensures allowed == IsAllowed(config, old(buckets), key, now)
      ensures remaining == RemainingOf(config, buckets, key, now)
    {
      LevelGrowth(config, buckets, key, now, now);
      LevelAfterStep(config, buckets, Call(key, now), key);
      StepSane(config, buckets, Call(key, now), now);
      assert Earned(config, now, now) == 0.0;
      if key !in buckets {
        buckets := buckets[key := Bucket(config.burst, now)];
      }
      var b := buckets[key];
      b := b.(tokens := b.tokens + Earned(config, b.lastTime, now));
      if b.tokens > config.burst {
        b := b.(tokens := config.burst);
      }
      b := b.(lastTime := now);
      if b.tokens < 1.0 {
        buckets := buckets[key := b];
        return false, b.tokens.Floor;
      }
      b := b.(tokens := b.tokens - 1.0);
      buckets := buckets[key := b];
      return true, b.tokens.Floor;
    }

    method Remaining(key: string, now: real) returns (n: int)
      ensures n == RemainingOf(config, buckets, key, now)
    {
      if key !in buckets {
        return config.burst.Floor;
      }
      var b := buckets[key];
      var tokens := b.tokens + Earned(config, b.lastTime, now);
      if tokens > config.burst {
        tokens := config.burst;
      }
      return tokens.Floor;
    }

    /** One tick of the cleanup loop, visiting the keys in any order. */
    method CleanupTick(now: real)
      requires Sane(config, buckets, now)
      modifies this
      ensures buckets == CleanupNext(config, old(buckets), now) && Sane(config, buckets, now)
      ensures forall k :: k in old(buckets) ==>
        var b := old(buckets)[k]; k in buckets <==> b.tokens + (now - b.lastTime) * config.rate < config.burst * 0.9
    {
      var threshold := config.burst * 0.9;
      var todo := buckets.Keys;
      while todo != {}
        invariant todo <= buckets.Keys <= old(buckets).Keys
        invariant forall k :: k in buckets ==> buckets[k] == old(buckets)[k]
        invariant forall k :: k in old(buckets) && k !in todo ==>
                                (k in buckets <==> !IsForgotten(config, old(buckets)[k], now))
        decreases |todo|
      {
        var k :| k in todo;
        var b := buckets[k];
        var tokens := b.tokens + Earned(config, b.lastTime, now);
        if tokens >= threshold {
          buckets := buckets - {k};
        }
        todo := todo - {k};
      }
    }
  }
}
