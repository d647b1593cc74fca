/** `CacheClient`: a read-through cache over Redis for any record type.
    A cached value is the record's JSON; the empty string is the marker for
    "confirmed absent from the database". JSON is a pair of functions, the
    database lookup (`dbFallback`) a function from id to an optional record. */
module Cache {
  import opened Common
  import opened Store
  import opened RedisConstants

  /** Hutool's JSON for one type: `toJsonStr` and `toBean`, which may fail. */
  datatype Codec<!T> = Codec(encode: T -> string, decode: string -> Option<T>)

  /** What the model assumes of JSON: reading back what was written gives the
      record, and a written record is never blank text. */
  ghost predicate RoundTrips<T(!new)>(codec: Codec<T>) {
    forall x: T :: codec.decode(codec.encode(x)) == Some(x) && !IsBlank(codec.encode(x))
  }

  /** `RedisData`: a record wrapped with the instant (ms) it is logically stale. */
  datatype RedisData<T> = RedisData(data: Option<T>, expireTime: int)

  /** `setIfAbsent(lockKey, "1", 10, SECONDS)`: the rebuild lock's TTL. */
  const LOCK_TTL: Positive := 10
  /** `Thread.sleep(50)` before a retry. */
  const RETRY_SLEEP_MS: nat := 50

  /** A read: what it returned or threw, the store and clock it left, and how
      many times it called `dbFallback`. */
  datatype Query<R> = Query(outcome: Outcome<Option<R>>, kv: Kv, clock: int, loads: nat)

  /** `JSONUtil.toBean` on a cached text. */
  function Decoded<R>(codec: Codec<R>, text: string): Outcome<Option<R>> {
    match codec.decode(text)
    case Some(r) => Return(Some(r))
    case None => Throw(DecodeFailed)
  }

  /** Caching what the database said: the record's JSON, or the empty marker. */
  function Populate<R>(kv: Kv, clock: int, key: string, codec: Codec<R>, loaded: Option<R>, ttl: Positive): (r: Kv)
    ensures r - {key} == kv - {key}
    ensures GetText(r, clock, key) == Some(if loaded.Some? then codec.encode(loaded.value) else "")
    ensures key in r && r[key].expireAt == Some(ExpiryAfter(clock, ttl))
  {
    match loaded
    case None => SetText(kv, clock, key, "", Some(ttl))
    case Some(x) => SetText(kv, clock, key, codec.encode(x), Some(ttl))
  }

  /** `queryWithPassThrough`: a non-blank hit is decoded, the marker answers
      null, and a miss asks the database once and caches the answer, record or
      marker, for `ttl` seconds. */
  function PassThrough<R>(kv: Kv, clock: int, key: string, codec: Codec<R>, dbFallback: Long -> Option<R>, id: Long, ttl: Positive): (q: Query<R>)
    ensures q.clock == clock && q.kv - {key} == kv - {key}
    ensures q.loads == (if Present(kv, clock, key) then 0 else 1)
    ensures q.loads == 0 ==> q.kv == kv
    ensures q.loads == 1 ==> q.outcome == Return(dbFallback(id))
    ensures !Present(kv, clock, key) ==> q.kv == Populate(kv, clock, key, codec, dbFallback(id), ttl)
    ensures Present(q.kv, clock, key)
  {
    match GetText(kv, clock, key)
    case Some(text) =>
      if !IsBlank(text) then Query(Decoded(codec, text), kv, clock, 0)
      else Query(Return(None), kv, clock, 0)
    case None =>
      var loaded := dbFallback(id);
      Query(Return(loaded), Populate(kv, clock, key, codec, loaded, ttl), clock, 1)
  }

  /** Two pass-through reads of an id the database lacks, the second within
      the marker's TTL: the database is asked once, and both answer null. */
  lemma PassThroughAbsentLoadsOnce<R>(kv: Kv, c1: int, c2: int, key: string, codec: Codec<R>, dbFallback: Long -> Option<R>, id: Long, ttl: Positive)
    requires !Present(kv, c1, key) && dbFallback(id).None?
    requires c1 <= c2 < ExpiryAfter(c1, ttl)
    ensures var first := PassThrough(kv, c1, key, codec, dbFallback, id, ttl);
            var second := PassThrough(first.kv, c2, key, codec, dbFallback, id, ttl);
            && first.outcome == Return(None) && second.outcome == Return(None)
            && first.loads + second.loads == 1
            && GetText(first.kv, c1, key) == Some("") && second.kv == first.kv
  {
    var first := PassThrough(kv, c1, key, codec, dbFallback, id, ttl);
    assert first.kv[key] == Entry(Text(""), Some(ExpiryAfter(c1, ttl)));
    assert IsBlank("");
  }

  /** A found record is cached as its JSON: the next read within the TTL
      returns the same record without asking the database. */
  lemma PassThroughCachesRecord<R(!new)>(kv: Kv, c1: int, c2: int, key: string, codec: Codec<R>, dbFallback: Long -> Option<R>, id: Long, ttl: Positive)
    requires RoundTrips(codec)
    requires !Present(kv, c1, key) && dbFallback(id).Some?
    requires c1 <= c2 < ExpiryAfter(c1, ttl)
    ensures var first := PassThrough(kv, c1, key, codec, dbFallback, id, ttl);
            var second := PassThrough(first.kv, c2, key, codec, dbFallback, id, ttl);
            && first.outcome == Return(dbFallback(id)) && first.loads == 1
            && GetText(first.kv, c1, key) == Some(codec.encode(dbFallback(id).value))
            && second == Query(Return(dbFallback(id)), first.kv, c2, 0)
  {
    var x := dbFallback(id).value;
    var first := PassThrough(kv, c1, key, codec, dbFallback, id, ttl);
    assert first.kv[key] == Entry(Text(codec.encode(x)), Some(ExpiryAfter(c1, ttl)));
    assert codec.decode(codec.encode(x)) == Some(x) && !IsBlank(codec.encode(x));
  }

  /** A live cached JSON record is answered as that record by both read
      paths, with no database load, no write and no wait. */
  lemma CachedRecordAnswers<R(!new)>(kv: Kv, clock: int, key: string, lockKey: string, codec: Codec<R>,
                                     dbFallback: Long -> Option<R>, id: Long, ttl: Positive, fuel: nat, x: R)
    requires RoundTrips(codec) && GetText(kv, clock, key) == Some(codec.encode(x))
    ensures PassThrough(kv, clock, key, codec, dbFallback, id, ttl) == Query(Return(Some(x)), kv, clock, 0)
    ensures Mutex(kv, clock, key, lockKey, codec, dbFallback, id, ttl, fuel) == Query(Return(Some(x)), kv, clock, 0)
  {
    assert codec.decode(codec.encode(x)) == Some(x) && !IsBlank(codec.encode(x));
  }

  /** A live blank value is the null marker: both read paths answer null,
      with no database load, no write and no wait. */
  lemma CachedMarkerAnswersNull<R>(kv: Kv, clock: int, key: string, lockKey: string, codec: Codec<R>,
                                   dbFallback: Long -> Option<R>, id: Long, ttl: Positive, fuel: nat, text: string)
    requires GetText(kv, clock, key) == Some(text) && IsBlank(text)
    ensures PassThrough(kv, clock, key, codec, dbFallback, id, ttl) == Query(Return(None), kv, clock, 0)
    ensures Mutex(kv, clock, key, lockKey, codec, dbFallback, id, ttl, fuel) == Query(Return(None), kv, clock, 0)
  {
  }

  /** The `finally` of every nested call that reached the lock deletes the lock key. */
  function Released<R>(q: Query<R>, lockKey: string): (r: Query<R>)
    ensures lockKey !in r.kv && r.kv - {lockKey} == q.kv - {lockKey}
    ensures r.outcome == q.outcome && r.clock == q.clock && r.loads == q.loads
  {
    q.(kv := Del(q.kv, lockKey))
  }

  /** `queryWithMutex` with at most `fuel` retries. A hit or the marker answers
      at once; a miss takes the lock `lockKey`, loads once and caches as
      `PassThrough` does; a busy lock sleeps and retries. Every call that
      reached the lock deletes the lock key in its `finally`, whether or not it
      acquired it. When the retries run out the read throws. */
  function Mutex<R>(kv: Kv, clock: int, key: string, lockKey: string, codec: Codec<R>,
                    dbFallback: Long -> Option<R>, id: Long, ttl: Positive, fuel: nat): (q: Query<R>)
    ensures q.loads <= 1 && clock <= q.clock <= clock + RETRY_SLEEP_MS * fuel
    ensures q.kv - {key, lockKey} == kv - {key, lockKey}
    ensures Present(kv, clock, key) ==> q == Query(q.outcome, kv, clock, 0)
    ensures !Present(kv, clock, key) ==> lockKey !in q.kv
    ensures q.loads == 1 ==> q.outcome == Return(dbFallback(id))
    ensures q.loads == 1 && key != lockKey ==> GetText(q.kv, q.clock, key) == Some(if dbFallback(id).Some? then codec.encode(dbFallback(id).value) else "")
    ensures q.loads == 1 && key != lockKey ==> key in q.kv && q.kv[key].expireAt == Some(ExpiryAfter(q.clock, ttl))
    decreases fuel
  {
    match GetText(kv, clock, key)
    case Some(text) =>
      if !IsBlank(text) then Query(Decoded(codec, text), kv, clock, 0)
      else Query(Return(None), kv, clock, 0)
    case None =>
      var (locked, kv1) := SetIfAbsent(kv, clock, lockKey, "1", LOCK_TTL);
      if !locked then
        if fuel == 0 then Released(Query(Throw(RetriesExhausted), kv1, clock, 0), lockKey)
        else Released(Mutex(kv1, clock + RETRY_SLEEP_MS, key, lockKey, codec, dbFallback, id, ttl, fuel - 1), lockKey)
      else
        var loaded := dbFallback(id);
        Released(Query(Return(loaded), Populate(kv1, clock, key, codec, loaded, ttl), clock, 1), lockKey)
  }

  /** The lock key is free, or its entry lapses by store time `t`. */
  predicate LockLapsesBy(kv: Kv, clock: int, lockKey: string, t: int) {
    Present(kv, clock, lockKey) ==> kv[lockKey].expireAt.Some? && kv[lockKey].expireAt.value <= t
  }

  /** Retrying until the lock's TTL has run out is enough: a read whose
      retries span the lifetime of the lock never runs out of retries, and a
      read that missed ends with the record it loaded itself. */
  lemma {:induction false} MutexOutlastsLock<R>(kv: Kv, clock: int, key: string, lockKey: string, codec: Codec<R>,
                                               dbFallback: Long -> Option<R>, id: Long, ttl: Positive, fuel: nat)
    requires key != lockKey
    requires LockLapsesBy(kv, clock, lockKey, clock + RETRY_SLEEP_MS * fuel)
    ensures Mutex(kv, clock, key, lockKey, codec, dbFallback, id, ttl, fuel).outcome != Throw(RetriesExhausted)
    ensures !Present(kv, clock, key) ==>
            var q := Mutex(kv, clock, key, lockKey, codec, dbFallback, id, ttl, fuel);
            q.outcome == Return(dbFallback(id)) && q.loads == 1
    decreases fuel
  {
    if !Present(kv, clock, key) && Present(kv, clock, lockKey) && fuel > 0 {
      assert !Present(kv, clock + RETRY_SLEEP_MS, key);
      MutexOutlastsLock(kv, clock + RETRY_SLEEP_MS, key, lockKey, codec, dbFallback, id, ttl, fuel - 1);
    }
  }

  /** In particular, a lock taken by `tryLock` (10 s TTL) at or before the read
      starts stops blocking it within 200 retries. */
  lemma MutexOutlastsTryLock<R>(kv: Kv, t0: int, clock: int, key: string, lockKey: string, codec: Codec<R>,
                                dbFallback: Long -> Option<R>, id: Long, ttl: Positive, fuel: nat)
    requires key != lockKey && t0 <= clock && fuel >= 200
    requires lockKey in kv && kv[lockKey].expireAt == Some(ExpiryAfter(t0, LOCK_TTL))
    ensures Mutex(kv, clock, key, lockKey, codec, dbFallback, id, ttl, fuel).outcome != Throw(RetriesExhausted)
    ensures !Present(kv, clock, key) ==>
            var q := Mutex(kv, clock, key, lockKey, codec, dbFallback, id, ttl, fuel);
            q.outcome == Return(dbFallback(id)) && q.loads == 1
  {
    MutexOutlastsLock(kv, clock, key, lockKey, codec, dbFallback, id, ttl, fuel);
  }

  /** The `finally` deletes the lock even for a caller that never acquired it:
      a read that misses while another client holds the lock, and gives up,
      removes that client's lock without having asked the database. */
  lemma MutexBusyDeletesForeignLock<R>(kv: Kv, clock: int, key: string, lockKey: string, codec: Codec<R>,
                                       dbFallback: Long -> Option<R>, id: Long, ttl: Positive)
    requires !Present(kv, clock, key) && Present(kv, clock, lockKey)
    ensures Mutex(kv, clock, key, lockKey, codec, dbFallback, id, ttl, 0) == Query(Throw(RetriesExhausted), Del(kv, lockKey), clock, 0)
  {
  }

  /** Two reads of one id by a single caller, the second within the TTL: the
      database is asked at most once, and the lock is gone after each. */
  lemma MutexLoadsOnce<R>(kv: Kv, c1: int, key: string, lockKey: string, codec: Codec<R>,
                          dbFallback: Long -> Option<R>, id: Long, ttl: Positive, fuel: nat)
    requires key != lockKey && !Present(kv, c1, key) && !Present(kv, c1, lockKey)
    ensures var first := Mutex(kv, c1, key, lockKey, codec, dbFallback, id, ttl, fuel);
            var second := Mutex(first.kv, c1, key, lockKey, codec, dbFallback, id, ttl, fuel);
            && first.loads == 1 && second.loads == 0 && lockKey !in first.kv
            && first.outcome == Return(dbFallback(id))
  {
  }

  /** `CacheClient`, holding the shared store. */
  class CacheClient {
    const redis: Redis

    constructor(redis: Redis)
      ensures this.redis == redis
    {
      this.redis := redis;
    }

    /** `set(key, value, time, unit)`: the record's JSON with a TTL. */
    method Set<R>(key: string, value: R, codec: Codec<R>, time: Positive, unit: TimeUnit)
      modifies redis
      ensures redis.kv == SetText(old(redis.kv), redis.clock, key, codec.encode(value), Some(ToSeconds(unit, time)))
      ensures redis.clock == old(redis.clock)
    {
      redis.Set(key, codec.encode(value), Some(ToSeconds(unit, time)));
    }

    /** `setWithLogicalExpire(key, value, time, unit)`: the record wrapped with
        `expireTime = now + unit.toSeconds(time)`, stored with no TTL. */
    method SetWithLogicalExpire<R>(key: string, value: R, envelope: Codec<RedisData<R>>, time: Positive, unit: TimeUnit, now: int)
      modifies redis
      ensures redis.kv == SetText(old(redis.kv), redis.clock, key, envelope.encode(RedisData(Some(value), now + 1000 * ToSeconds(unit, time))), None)
      ensures redis.clock == old(redis.clock)
    {
      var redisData := RedisData(Some(value), now + 1000 * ToSeconds(unit, time));
      redis.Set(key, envelope.encode(redisData), None);
    }

    method QueryWithPassThrough<R>(keyPrefix: string, id: Long, codec: Codec<R>, dbFallback: Long -> Option<R>, time: Positive, unit: TimeUnit)
      returns (r: Outcome<Option<R>>, ghost loads: nat)
      modifies redis
      ensures var q := PassThrough(old(redis.kv), old(redis.clock), keyPrefix + LongToString(id), codec, dbFallback, id, ToSeconds(unit, time));
              r == q.outcome && redis.kv == q.kv && redis.clock == q.clock && loads == q.loads
    {
      var key := keyPrefix + LongToString(id);
      var shopJson := redis.Get(key);
      if shopJson.Some? && !IsBlank(shopJson.value) {
        r, loads := Decoded(codec, shopJson.value), 0;
        return;
      }
      if shopJson.Some? {
        r, loads := Return(None), 0;
        return;
      }
      var loaded := dbFallback(id);
      loads := 1;
      if loaded.None? {
        redis.Set(key, "", Some(ToSeconds(unit, time)));
        r := Return(None);
        return;
      }
      Set(key, loaded.value, codec, time, unit);
      r := Return(loaded);
    }

    /** `queryWithMutex`, its retry recursion a loop of at most `fuel` retries.
        The lock key is `LOCK_SHOP_KEY + id` whatever `keyPrefix` is. */
    method QueryWithMutex<R>(keyPrefix: string, id: Long, codec: Codec<R>, dbFallback: Long -> Option<R>,
                             time: Positive, unit: TimeUnit, fuel: nat)
      returns (r: Outcome<Option<R>>, ghost loads: nat)
      modifies redis
      ensures var q := Mutex(old(redis.kv), old(redis.clock), keyPrefix + LongToString(id), LOCK_SHOP_KEY + LongToString(id),
                             codec, dbFallback, id, ToSeconds(unit, time), fuel);
              r == q.outcome && redis.kv == q.kv && redis.clock == q.clock && loads == q.loads
    {
      var key := keyPrefix + LongToString(id);
      var lockKey := LOCK_SHOP_KEY + LongToString(id);
      var ttl: Positive := ToSeconds(unit, time);
      ghost var spec := Mutex(redis.kv, redis.clock, key, lockKey, codec, dbFallback, id, ttl, fuel);
      var retries: nat := fuel;
      var entered := false;  // some call reached the try block, so a finally deletes the lock key
      loads := 0;
      while true
        invariant retries <= fuel
        invariant spec == (var rest := Mutex(redis.kv, redis.clock, key, lockKey, codec, dbFallback, id, ttl, retries);
                           if entered then Released(rest, lockKey) else rest)
        decreases retries
      {
        var shopJson := redis.Get(key);
        if shopJson.Some? {
          r := if !IsBlank(shopJson.value) then Decoded(codec, shopJson.value) else Return(None);
          break;
        }
        var isLock := TryLock(lockKey);
        entered := true;
        if !isLock {
          if retries == 0 {
            r := Throw(RetriesExhausted);
            break;
          }
          redis.Elapse(RETRY_SLEEP_MS);
          retries := retries - 1;
        } else {
          var loaded := dbFallback(id);
          loads := 1;
          if loaded.None? {
            redis.Set(key, "", Some(ttl));
          } else {
            redis.Set(key, codec.encode(loaded.value), Some(ttl));
          }
          r := Return(loaded);
          break;
        }
      }
      if entered {
        UnLock(lockKey);
      }
    }

    /** `tryLock(key)`: SET key "1" NX EX 10. */
    method TryLock(key: string) returns (ok: bool)
      modifies redis
      ensures (ok, redis.kv) == SetIfAbsent(old(redis.kv), redis.clock, key, "1", LOCK_TTL)
      ensures redis.clock == old(redis.clock)
    {
      ok := redis.SetNx(key, "1", LOCK_TTL);
    }

    /** `unLock(key)`: DEL key, whoever set it. */
    method UnLock(key: string)
      modifies redis
      ensures redis.kv == Del(old(redis.kv), key) && redis.clock == old(redis.clock)
    {
      redis.Delete(key);
    }
  }
}
