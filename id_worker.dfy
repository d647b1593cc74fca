/** `RedisIdWorker`: a 64-bit id whose high 32 bits are the seconds since
    2022-01-01T00:00:00 and whose low 32 bits are a per-prefix, per-day
    counter kept in Redis. Java's `long` arithmetic (`-`, `<<`, `|`) is
    written out on unbounded integers, wrap-around included. */
module IdWorker {
  import opened Common
  import opened Store

  /** 2022-01-01T00:00:00Z in epoch seconds. */
  const BEGIN_TIMESTAMP: int := 1640995200
  /** Bits reserved for the counter. */
  const COUNT_BITS: nat := 32

  const TWO_31: int := 0x8000_0000
  const TWO_32: int := 0x1_0000_0000
  const TWO_64: int := 0x1_0000_0000_0000_0000

  function Pow2(n: nat): (r: nat)
    ensures r >= 1
  {
    if n == 0 then 1 else 2 * Pow2(n - 1)
  }

  lemma {:induction false} Pow2Add(a: nat, b: nat)
    ensures Pow2(a + b) == Pow2(a) * Pow2(b)
    decreases a
  {
    if a > 0 {
      Pow2Add(a - 1, b);
      assert Pow2(a + b) == 2 * Pow2(a - 1 + b);
    }
  }

  lemma Pow2Of32()
    ensures Pow2(32) == TWO_32 && Pow2(33) == 2 * TWO_32
  {
    assert Pow2(2) == 4;
    assert Pow2(4) == 16;
    Pow2Add(4, 4);
    Pow2Add(8, 8);
    Pow2Add(16, 16);
  }

  /** Java's overflow on `long`: keep the low 64 bits and read them as signed. */
  function Wrap(x: int): (r: Long)
    ensures r % TWO_64 == x % TWO_64
    ensures LONG_MIN <= x <= LONG_MAX ==> r == x
  {
    var u := x % TWO_64;
    if u <= LONG_MAX then u else u - TWO_64
  }

  /** Bitwise OR of two naturals, one bit at a time from the least significant. */
  function BitOr(a: nat, b: nat): nat
    decreases a + b
  {
    if a == 0 then b
    else if b == 0 then a
    else 2 * BitOr(a / 2, b / 2) + (if a % 2 == 1 || b % 2 == 1 then 1 else 0)
  }

  /** Java `a | b` on two `long`s, through their two's-complement bit patterns. */
  function LongOr(a: Long, b: Long): Long {
    Wrap(BitOr(a % TWO_64, b % TWO_64))
  }

  /** Java `x << COUNT_BITS` on a `long`. */
  function ShiftLeft(x: Long): Long {
    Wrap(x * Pow2(COUNT_BITS))
  }

  /** Java `x >> COUNT_BITS` (arithmetic shift: rounds toward minus infinity). */
  function ShiftRight(x: Long): int {
    x / TWO_32
  }

  /** Java `x & 0xFFFFFFFFL`: the low COUNT_BITS bits. */
  function LowBits(x: Long): int {
    x % TWO_32
  }

  /** `timestamp << COUNT_BITS | count`. */
  function ComposeId(timestamp: Long, count: Long): Long {
    LongOr(ShiftLeft(timestamp), count)
  }

  /** OR-ing a number below 2^n into a multiple of 2^n is addition. */
  lemma {:induction false} BitOrAppends(a: nat, b: nat, n: nat)
    requires b < Pow2(n)
    ensures BitOr(a * Pow2(n), b) == a * Pow2(n) + b
    decreases n
  {
    if n > 0 && a != 0 && b != 0 {
      var h := a * Pow2(n - 1);
      assert a * Pow2(n) == 2 * h;
      assert (2 * h) / 2 == h && (2 * h) % 2 == 0;
      BitOrAppends(a, b / 2, n - 1);
    }
  }

  /** Within range, the id is plain arithmetic: timestamp * 2^32 + count. */
  lemma ComposeIdValue(timestamp: Long, count: Long)
    requires 0 <= timestamp < TWO_31 && 0 <= count < TWO_32
    ensures ComposeId(timestamp, count) == timestamp * TWO_32 + count
  {
    Pow2Of32();
    ShiftLeftValue(timestamp);
    var shifted := timestamp * TWO_32;
    assert shifted + count < TWO_31 * TWO_32;
    BitOrAppends(timestamp, count, 32);
    LongOrValue(shifted, count);
  }

  /** The id decodes back into its two parts: `id >> 32` is the timestamp and
      `id & 0xFFFFFFFF` the count. */
  lemma ComposeIdDecodes(timestamp: Long, count: Long)
    requires 0 <= timestamp < TWO_31 && 0 <= count < TWO_32
    ensures ComposeId(timestamp, count) >= 0
    ensures ShiftRight(ComposeId(timestamp, count)) == timestamp
    ensures LowBits(ComposeId(timestamp, count)) == count
  {
    ComposeIdValue(timestamp, count);
  }

  /** Ids order lexicographically by (timestamp, count): a later second always
      gives a larger id whatever the counters, and within one second a larger
      count gives a larger id. */
  lemma ComposeIdOrdered(t1: Long, c1: Long, t2: Long, c2: Long)
    requires 0 <= t1 < TWO_31 && 0 <= c1 < TWO_32
    requires 0 <= t2 < TWO_31 && 0 <= c2 < TWO_32
    requires t1 < t2 || (t1 == t2 && c1 < c2)
    ensures ComposeId(t1, c1) < ComposeId(t2, c2)
  {
    ComposeIdValue(t1, c1);
    ComposeIdValue(t2, c2);
    if t1 < t2 {
      assert t1 * TWO_32 + TWO_32 <= t2 * TWO_32;
    }
  }

  /** `x << 32` for a timestamp below 2^31 is x * 2^32. */
  lemma ShiftLeftValue(x: Long)
    requires 0 <= x < TWO_31
    ensures ShiftLeft(x) == x * TWO_32
  {
    Pow2Of32();
    assert x * TWO_32 < TWO_31 * TWO_32;
  }

  /** Kept apart so that the solver reduces `x % m` without the constants of
      the caller in view. */
  lemma ModSmall(x: int, m: int)
    requires 0 <= x < m
    ensures x % m == x
  {
  }

  /** On two non-negative longs whose OR stays a non-negative long, `|` is `BitOr`. */
  lemma LongOrValue(a: Long, b: Long)
    requires 0 <= a && 0 <= b && BitOr(a, b) <= LONG_MAX
    ensures LongOr(a, b) == BitOr(a, b)
  {
    ModSmall(a, TWO_64);
    ModSmall(b, TWO_64);
    var x := BitOr(a, b);
    assert LONG_MIN <= x <= LONG_MAX;
    assert Wrap(x) == x;
  }

  /** A count of 2^32 or more spills into the timestamp bits: for an even
      second t, the id of count 2^32 + c in second t is the id of count c in
      second t + 1. */
  lemma CounterOverflowCollides(t: Long, c: Long)
    requires 0 <= t && t + 1 < TWO_31 && t % 2 == 0
    requires 0 <= c < TWO_32
    ensures TWO_32 + c <= LONG_MAX
    ensures ComposeId(t, TWO_32 + c) == ComposeId(t + 1, c)
  {
    var h := t / 2;
    var shifted := t * TWO_32;
    ShiftLeftValue(t);
    Pow2Of32();
    assert shifted == h * Pow2(33) by {
      assert t == 2 * h;
    }
    BitOrAppends(h, TWO_32 + c, 33);
    assert shifted + TWO_32 + c == (t + 1) * TWO_32 + c;
    ComposeIdValue(t + 1, c);
    LongOrValue(shifted, TWO_32 + c);
  }

  /** The Redis key of the counter: `"icr:" + keyPrefix + ":" + date`. */
  function CounterKey(keyPrefix: string, date: string): string {
    "icr:" + keyPrefix + ":" + date
  }

  /** With the ten-character `yyyy:MM:dd` date, different prefixes or days
      never share a counter. */
  lemma CounterKeyInjective(p1: string, d1: string, p2: string, d2: string)
    requires |d1| == 10 && |d2| == 10
    requires (p1, d1) != (p2, d2)
    ensures CounterKey(p1, d1) != CounterKey(p2, d2)
  {
    if |p1| == |p2| {
      if p1 != p2 {
        var i :| 0 <= i < |p1| && p1[i] != p2[i];
        assert CounterKey(p1, d1)[4 + i] == p1[i];
        assert CounterKey(p2, d2)[4 + i] == p2[i];
      } else {
        assert d1 != d2;
        assert exists j :: 0 <= j < 10 && d1[j] != d2[j];
        var i :| 0 <= i < 10 && d1[i] != d2[i];
        assert CounterKey(p1, d1)[5 + |p1| + i] == d1[i];
        assert CounterKey(p2, d2)[5 + |p2| + i] == d2[i];
      }
    }
  }

  /** What one `nextId(keyPrefix)` returns and leaves in the store. */
  function NextIdStep(kv: Kv, clock: int, keyPrefix: string, nowSecond: Long, date: string): (r: (Outcome<Long>, Kv))
    ensures r.1 - {CounterKey(keyPrefix, date)} == kv - {CounterKey(keyPrefix, date)}
    ensures r.0.Return? ==> CounterAt(r.1, clock, CounterKey(keyPrefix, date)) == CounterAt(kv, clock, CounterKey(keyPrefix, date)) + 1
    ensures r.0.Throw? ==> r.1 == kv
  {
    var timestamp := Wrap(nowSecond - BEGIN_TIMESTAMP);
    var (count, kv') := Incr(kv, clock, CounterKey(keyPrefix, date));
    match count
    case Return(n) => (Return(ComposeId(timestamp, n)), kv')
    case Throw(f) => (Throw(f), kv')
  }

  /** The counter at `key` can be incremented `k` more times staying below 2^32. */
  predicate CounterRoom(kv: Kv, clock: int, key: string, k: nat) {
    && (Present(kv, clock, key) ==> kv[key].value.Counter?)
    && 0 <= CounterAt(kv, clock, key) && CounterAt(kv, clock, key) + k < TWO_32
  }

  /** One successful call: the counter grows by one and the id carries the
      new count under the current second. */
  lemma NextIdStepValue(kv: Kv, clock: int, keyPrefix: string, now: Long, date: string, k: nat)
    requires BEGIN_TIMESTAMP <= now < BEGIN_TIMESTAMP + TWO_31
    requires CounterRoom(kv, clock, CounterKey(keyPrefix, date), k + 1)
    ensures var n := CounterAt(kv, clock, CounterKey(keyPrefix, date));
            NextIdStep(kv, clock, keyPrefix, now, date).0 == Return(ComposeId(now - BEGIN_TIMESTAMP, n + 1))
    ensures CounterRoom(NextIdStep(kv, clock, keyPrefix, now, date).1, clock, CounterKey(keyPrefix, date), k)
  {
    var key := CounterKey(keyPrefix, date);
    var n := CounterAt(kv, clock, key);
    var r := Incr(kv, clock, key);
    assert r.0 == Return(n + 1);
  }

  /** Two successive calls with the same prefix and day, the second no earlier
      than the first, both succeed and return increasing ids (so distinct ids). */
  lemma NextIdIncreasing(kv: Kv, clock: int, keyPrefix: string, now1: Long, now2: Long, date: string)
    requires BEGIN_TIMESTAMP <= now1 <= now2 < BEGIN_TIMESTAMP + TWO_31
    requires CounterRoom(kv, clock, CounterKey(keyPrefix, date), 2)
    ensures var first := NextIdStep(kv, clock, keyPrefix, now1, date);
            var second := NextIdStep(first.1, clock, keyPrefix, now2, date);
            first.0.Return? && second.0.Return? && first.0.value < second.0.value
  {
    var key := CounterKey(keyPrefix, date);
    var n := CounterAt(kv, clock, key);
    var first := NextIdStep(kv, clock, keyPrefix, now1, date);
    NextIdStepValue(kv, clock, keyPrefix, now1, date, 1);
    NextIdStepValue(first.1, clock, keyPrefix, now2, date, 0);
    assert CounterAt(first.1, clock, key) == n + 1;
    ComposeIdOrdered(now1 - BEGIN_TIMESTAMP, n + 1, now2 - BEGIN_TIMESTAMP, n + 2);
  }

  /** Ids with different counts differ, whatever their timestamps. */
  lemma ComposeIdCountsDiffer(t1: Long, c1: Long, t2: Long, c2: Long)
    requires 0 <= t1 < TWO_31 && 0 <= c1 < TWO_32
    requires 0 <= t2 < TWO_31 && 0 <= c2 < TWO_32
    requires c1 != c2
    ensures ComposeId(t1, c1) != ComposeId(t2, c2)
  {
    ComposeIdDecodes(t1, c1);
    ComposeIdDecodes(t2, c2);
  }

  /** Two successive calls with the same prefix and day return distinct ids
      whatever the two clock readings, even when the clock steps backwards:
      the counter parts of the two ids differ. */
  lemma NextIdDistinct(kv: Kv, clock: int, keyPrefix: string, now1: Long, now2: Long, date: string)
    requires BEGIN_TIMESTAMP <= now1 < BEGIN_TIMESTAMP + TWO_31
    requires BEGIN_TIMESTAMP <= now2 < BEGIN_TIMESTAMP + TWO_31
    requires CounterRoom(kv, clock, CounterKey(keyPrefix, date), 2)
    ensures var first := NextIdStep(kv, clock, keyPrefix, now1, date);
            var second := NextIdStep(first.1, clock, keyPrefix, now2, date);
            first.0.Return? && second.0.Return? && first.0.value != second.0.value
  {
    var key := CounterKey(keyPrefix, date);
    var n := CounterAt(kv, clock, key);
    var first := NextIdStep(kv, clock, keyPrefix, now1, date);
    NextIdStepValue(kv, clock, keyPrefix, now1, date, 1);
    NextIdStepValue(first.1, clock, keyPrefix, now2, date, 0);
    assert CounterAt(first.1, clock, key) == n + 1;
    ComposeIdCountsDiffer(now1 - BEGIN_TIMESTAMP, n + 1, now2 - BEGIN_TIMESTAMP, n + 2);
  }

  /** `RedisIdWorker`, holding the shared store. */
  class RedisIdWorker {
    const redis: Redis

    constructor(redis: Redis)
      ensures this.redis == redis
    {
      this.redis := redis;
    }

    /** `nextId(keyPrefix)`: the JVM clock's epoch second and its `yyyy:MM:dd`
        date come in as parameters. */
    method NextId(keyPrefix: string, nowSecond: Long, date: string) returns (id: Outcome<Long>)
      modifies redis
      ensures (id, redis.kv) == NextIdStep(old(redis.kv), redis.clock, keyPrefix, nowSecond, date)
      ensures redis.clock == old(redis.clock)
    {
      var timestamp := Wrap(nowSecond - BEGIN_TIMESTAMP);
      var count := redis.Increment(CounterKey(keyPrefix, date));
      match count {
        case Return(n) => id := Return(ComposeId(timestamp, n));
        case Throw(f) => id := Throw(f);
      }
    }
  }
}
