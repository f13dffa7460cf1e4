/** mcp_server/rate_limit.py: the token-bucket limiter, one bucket per key.

    Time and token counts are reals; floating-point rounding is abstracted away.
    The monotonic clock is an input: each call is given the two readings it would
    take under the lock (one for a bucket it may have to create, one for the refill).
  */
module RateLimit {

  /** The two numbers a limiter is constructed with. */
  datatype Config = Config(capacity: real, refill: real)

  /** The two fields of a bucket that change: everything else is the Config. */
  datatype Level = Level(tokens: real, last: real)

  type Table = map<string, Level>

  function Min(a: real, b: real): real {
    if a <= b then a else b
  }

  /** What a bucket earns in a number of seconds. */
  function Gain(cfg: Config, seconds: real): real {
    seconds * cfg.refill
  }

  lemma GainNonNegative(cfg: Config, seconds: real)
    requires cfg.refill >= 0.0 && seconds >= 0.0
    ensures Gain(cfg, seconds) >= 0.0
  {
  }

  /** Lazy refill, capped at the capacity. */
  function Refilled(cfg: Config, l: Level, now: real): Level {
    Level(Min(cfg.capacity, l.tokens + Gain(cfg, now - l.last)), now)
  }

  predicate Admits(l: Level) {
    l.tokens >= 1.0
  }

  /** The bucket after the decision: one token is spent exactly when there is one. */
  function Spent(l: Level): Level {
    if Admits(l) then l.(tokens := l.tokens - 1.0) else l
  }

  /** A bucket is created full, on the first call for its key. */
  function Opened(cfg: Config, table: Table, key: string, created: real): Table {
    if key in table then table else table[key := Level(cfg.capacity, created)]
  }

  datatype Acquired = Acquired(table: Table, granted: bool)

  /** One whole `try_acquire` as a function of the table of buckets. */
  function Acquire(cfg: Config, table: Table, key: string, created: real, now: real): Acquired {
    var open := Opened(cfg, table, key, created);
    var full := Refilled(cfg, open[key], now);
    Acquired(open[key := Spent(full)], Admits(full))
  }

  class Bucket {
    const capacity: real
    var tokens: real
    const refillPerSec: real
    var last: real

    constructor (capacity: real, tokens: real, refillPerSec: real, last: real)
      ensures this.capacity == capacity && this.refillPerSec == refillPerSec
      ensures this.tokens == tokens && this.last == last
    {
      this.capacity := capacity;
      this.tokens := tokens;
      this.refillPerSec := refillPerSec;
      this.last := last;
    }
  }

  class RateLimiter {
    const capacity: real
    const refill: real
    var buckets: map<string, Bucket>

    /** No two keys share a bucket, and every bucket carries the limiter's own settings. */
    ghost predicate Valid()
      reads this, buckets.Values
    {
      && (forall k <- buckets :: buckets[k].capacity == capacity && buckets[k].refillPerSec == refill)
      && (forall j <- buckets, k <- buckets :: buckets[j] == buckets[k] ==> j == k)
    }

    ghost function Settings(): Config {
      Config(capacity, refill)
    }

    ghost function Contents(): Table
      reads this, buckets.Values
    {
      map k | k in buckets :: Level(buckets[k].tokens, buckets[k].last)
    }

    constructor (capacity: int, refillPerSec: real)
      ensures Valid() && Settings() == Config(capacity as real, refillPerSec)
      ensures Contents() == map[] && buckets == map[]
    {
      this.capacity := capacity as real;
      this.refill := refillPerSec;
      this.buckets := map[];
    }

    /** `_bucket`: look the key up, creating a full bucket when it is missing. */
    method BucketFor(key: string, created: real) returns (b: Bucket)
      requires Valid()
      modifies this
      ensures Valid()
      ensures key in buckets && b == buckets[key]
      ensures forall x <- buckets.Values :: x in old(buckets.Values) || fresh(x)
      ensures Contents() == Opened(Settings(), old(Contents()), key, created)
    {
      if key in buckets {
        b := buckets[key];
      } else {
        b := new Bucket(capacity, capacity, refill, created);
        buckets := buckets[key := b];
      }
    }

    /** `try_acquire`, with the lock held throughout. */
    method TryAcquire(key: string, created: real, now: real) returns (granted: bool)
      requires Valid()
      modifies this, buckets.Values
      ensures Valid()
      ensures forall x <- buckets.Values :: x in old(buckets.Values) || fresh(x)
      ensures Acquired(Contents(), granted) == Acquire(Settings(), old(Contents()), key, created, now)
    {
      var b := BucketFor(key, created);
      ghost var open := Contents();
      ghost var full := Refilled(Settings(), open[key], now);
      b.tokens := Min(b.capacity, b.tokens + (now - b.last) * b.refillPerSec);
      b.last := now;
      assert Level(b.tokens, b.last) == full;
      granted := b.tokens >= 1.0;
      if granted {
        b.tokens := b.tokens - 1.0;
      }
      assert Level(b.tokens, b.last) == Spent(full);
      assert Contents() == open[key := Spent(full)];
    }
  }
}
