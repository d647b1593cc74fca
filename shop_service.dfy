/** `ShopServiceImpl`: the shop table behind three caching strategies (the
    pass-through read of `CacheClient`, a mutex read of its own and a
    logical-expiry read that serves stale data while a rebuild runs), and an
    update that writes the table and then drops the cached copy. */
module ShopService {
  import opened Common
  import opened Store
  import opened RedisConstants
  import opened Cache

  /** A row of `tb_shop`, every column nullable as in the entity class. */
  datatype Shop = Shop(
    id: Option<Long>,
    name: Option<string>,
    typeId: Option<Long>,
    address: Option<string>,
    avgPrice: Option<Long>,
    score: Option<int>)

  /** The shop table, by primary key. */
  type Table = map<Long, Shop>

  const SHOP_MISSING: string := "店铺不存在！"
  const ID_REQUIRED: string := "店铺ID不能为空"
  /** The logical TTL `queryWithLogicalExpire` hands to `saveShop2Redis`. */
  const REBUILD_SECONDS: int := 20

  function ShopKey(id: Long): string {
    CACHE_SHOP_KEY + LongToString(id)
  }

  function LockKey(id: Long): string {
    LOCK_SHOP_KEY + LongToString(id)
  }

  /** Every row is stored under its own id. */
  predicate WellKeyed(shops: Table) {
    forall k :: k in shops ==> shops[k].id == Some(k)
  }

  /** `getById`: the row, or null. */
  function GetById(shops: Table, id: Long): (r: Option<Shop>)
    ensures r.Some? <==> id in shops
  {
    if id in shops then Some(shops[id]) else None
  }

  /** `this::getById` over the table as it stands when the read starts. */
  function ShopLookup(shops: Table): Long -> Option<Shop> {
    (id: Long) => GetById(shops, id)
  }

  /** `updateById`'s SET clause: the non-null columns of the patch replace the row's. */
  function Merge(row: Shop, patch: Shop): Shop {
    Shop(
      if patch.id.Some? then patch.id else row.id,
      if patch.name.Some? then patch.name else row.name,
      if patch.typeId.Some? then patch.typeId else row.typeId,
      if patch.address.Some? then patch.address else row.address,
      if patch.avgPrice.Some? then patch.avgPrice else row.avgPrice,
      if patch.score.Some? then patch.score else row.score)
  }

  /** `updateById(shop)`: rewrite the row with the patch's id, if there is one;
      no other row changes and no row is added. */
  function UpdateById(shops: Table, patch: Shop): (r: Table)
    requires patch.id.Some?
    ensures r.Keys == shops.Keys
    ensures forall k :: k in shops && Some(k) != patch.id ==> r[k] == shops[k]
    ensures WellKeyed(shops) ==> WellKeyed(r)
  {
    var id := patch.id.value;
    if id in shops then shops[id := Merge(shops[id], patch)] else shops
  }

  /** `queryById`: the pass-through read under `CACHE_SHOP_KEY` with a
      `CACHE_SHOP_TTL`-minute TTL; null becomes the failure "店铺不存在！". */
  function ReadShop(kv: Kv, clock: int, shops: Table, codec: Codec<Shop>, id: Long): (r: (Outcome<Response<Shop>>, Kv))
    ensures var q := PassThrough(kv, clock, ShopKey(id), codec, ShopLookup(shops), id, ToSeconds(Minutes, CACHE_SHOP_TTL));
            && r.1 == q.kv
            && (r.0 == Return(Fail(SHOP_MISSING)) <==> q.outcome == Return(None))
            && (r.0.Return? && r.0.value.Ok? ==> q.outcome == Return(r.0.value.data) && r.0.value.data.Some?)
            && (r.0.Throw? <==> q.outcome.Throw?)
            && (q.outcome.Return? && q.outcome.value.Some? ==> r.0 == Return(Ok(q.outcome.value)))
            && (q.outcome.Throw? ==> r.0 == Throw(q.outcome.failure))
  {
    var q := PassThrough(kv, clock, ShopKey(id), codec, ShopLookup(shops), id, ToSeconds(Minutes, CACHE_SHOP_TTL));
    match q.outcome
    case Throw(f) => (Throw(f), q.kv)
    case Return(None) => (Return(Fail(SHOP_MISSING)), q.kv)
    case Return(Some(shop)) => (Return(Ok(Some(shop))), q.kv)
  }

  /** The text the cache should hold for a shop id: its JSON, or the empty marker. */
  function CachedText(shops: Table, codec: Codec<Shop>, id: Long): string {
    if id in shops then codec.encode(shops[id]) else ""
  }

  /** Cache-aside consistency: every live shop key holds what the table says. */
  predicate CacheAgrees(kv: Kv, clock: int, shops: Table, codec: Codec<Shop>) {
    forall id: Long :: Present(kv, clock, ShopKey(id)) ==> GetText(kv, clock, ShopKey(id)) == Some(CachedText(shops, codec, id))
  }

  /** While the cache agrees with the table, `queryById` answers exactly what
      the table holds, fails exactly for a missing id, and keeps the cache in
      agreement. */
  lemma ReadShopMatchesTable(kv: Kv, clock: int, shops: Table, codec: Codec<Shop>, id: Long)
    requires RoundTrips(codec) && CacheAgrees(kv, clock, shops, codec)
    ensures var r := ReadShop(kv, clock, shops, codec, id);
            && r.0 == (if id in shops then Return(Ok(Some(shops[id]))) else Return(Fail(SHOP_MISSING)))
            && CacheAgrees(r.1, clock, shops, codec)
  {
    var r := ReadShop(kv, clock, shops, codec, id);
    var key := ShopKey(id);
    if Present(kv, clock, key) {
      assert GetText(kv, clock, key) == Some(CachedText(shops, codec, id));
      if id in shops {
        assert codec.decode(codec.encode(shops[id])) == Some(shops[id]) && !IsBlank(codec.encode(shops[id]));
      } else {
        assert IsBlank("");
      }
    } else {
      forall other: Long | Present(r.1, clock, ShopKey(other))
        ensures GetText(r.1, clock, ShopKey(other)) == Some(CachedText(shops, codec, other))
      {
        if other != id {
          ShopKeyInjective(other, id);
        }
      }
    }
  }

  /** `update`: a null id fails and changes nothing; otherwise the row is
      updated and the cached copy deleted, whether or not a row matched. */
  function UpdateShop(shops: Table, kv: Kv, patch: Shop): (r: (Response<Shop>, Table, Kv))
    ensures patch.id.None? ==> r == (Fail(ID_REQUIRED), shops, kv)
    ensures patch.id.Some? ==> && r.0 == Ok(None) && r.1 == UpdateById(shops, patch)
                               && ShopKey(patch.id.value) !in r.2
                               && r.2 - {ShopKey(patch.id.value)} == kv - {ShopKey(patch.id.value)}
  {
    match patch.id
    case None => (Fail(ID_REQUIRED), shops, kv)
    case Some(id) => (Ok(None), UpdateById(shops, patch), Del(kv, ShopKey(id)))
  }

  /** Invalidate-on-update keeps the cache in agreement with the table. */
  lemma UpdateKeepsCacheAgreeing(shops: Table, kv: Kv, clock: int, codec: Codec<Shop>, patch: Shop)
    requires CacheAgrees(kv, clock, shops, codec)
    ensures var r := UpdateShop(shops, kv, patch);
            CacheAgrees(r.2, clock, r.1, codec)
  {
    if patch.id.Some? {
      var id := patch.id.value;
      var r := UpdateShop(shops, kv, patch);
      forall other: Long | Present(r.2, clock, ShopKey(other))
        ensures GetText(r.2, clock, ShopKey(other)) == Some(CachedText(r.1, codec, other))
      {
        if other != id {
          ShopKeyInjective(other, id);
          assert Present(kv, clock, ShopKey(other));
        }
      }
    }
  }

  /** A read after an update of an existing row returns the updated row,
      loading it from the table once. */
  lemma UpdateThenReadIsFresh(shops: Table, kv: Kv, clock: int, codec: Codec<Shop>, patch: Shop)
    requires patch.id.Some? && patch.id.value in shops
    ensures var u := UpdateShop(shops, kv, patch);
            var id := patch.id.value;
            && ReadShop(u.2, clock, u.1, codec, id).0 == Return(Ok(Some(Merge(shops[id], patch))))
            && PassThrough(u.2, clock, ShopKey(id), codec, ShopLookup(u.1), id, ToSeconds(Minutes, CACHE_SHOP_TTL)).loads == 1
  {
  }

  /** The mutex read of `ShopServiceImpl` caches a found shop for
      `CACHE_NULL_TTL` minutes, the marker's lifetime, not `CACHE_SHOP_TTL`. */
  lemma ShopMutexUsesNullTtl(kv: Kv, clock: int, shops: Table, codec: Codec<Shop>, id: Long, fuel: nat)
    requires id in shops && !Present(kv, clock, ShopKey(id)) && !Present(kv, clock, LockKey(id))
    ensures var q := Mutex(kv, clock, ShopKey(id), LockKey(id), codec, ShopLookup(shops), id, ToSeconds(Minutes, CACHE_NULL_TTL), fuel);
            && q.outcome == Return(Some(shops[id]))
            && ShopKey(id) in q.kv && q.kv[ShopKey(id)].expireAt == Some(clock + 120_000)
            && clock + 120_000 < ExpiryAfter(clock, ToSeconds(Minutes, CACHE_SHOP_TTL))
  {
    ShopKeysDistinct(id, id);
  }

  /** What a logical-expiry read returns, leaves in the store, and whether it
      submitted a rebuild. */
  datatype LogicalOutcome = LogicalOutcome(outcome: Outcome<Option<Shop>>, kv: Kv, rebuild: bool)

  /** `queryWithLogicalExpire` at JVM time `now` (ms): a missing or blank key
      answers null; an envelope still fresh answers its shop; a stale one
      answers its shop too, after trying the rebuild lock, and a rebuild is
      submitted exactly when the lock was taken. */
  function LogicalRead(kv: Kv, clock: int, envelope: Codec<RedisData<Shop>>, id: Long, now: int): (r: LogicalOutcome)
    ensures r.kv - {LockKey(id)} == kv - {LockKey(id)}
    ensures !r.rebuild ==> r.kv == kv
    ensures r.rebuild ==> !Present(kv, clock, LockKey(id)) && GetText(r.kv, clock, LockKey(id)) == Some("1")
    ensures r.rebuild ==> r.outcome.Return?
  {
    match GetText(kv, clock, ShopKey(id))
    case None => LogicalOutcome(Return(None), kv, false)
    case Some(json) =>
      if IsBlank(json) then LogicalOutcome(Return(None), kv, false)
      else match envelope.decode(json)
        case None => LogicalOutcome(Throw(DecodeFailed), kv, false)
        case Some(redisData) =>
          if redisData.expireTime > now then LogicalOutcome(Return(redisData.data), kv, false)
          else
            var (isLock, kv1) := SetIfAbsent(kv, clock, LockKey(id), "1", LOCK_TTL);
            LogicalOutcome(Return(redisData.data), kv1, isLock)
  }

  /** A missing or blank entry answers null without a lock or a rebuild. */
  lemma LogicalReadMiss(kv: Kv, clock: int, envelope: Codec<RedisData<Shop>>, id: Long, now: int)
    requires GetText(kv, clock, ShopKey(id)).None? || IsBlank(GetText(kv, clock, ShopKey(id)).value)
    ensures LogicalRead(kv, clock, envelope, id, now) == LogicalOutcome(Return(None), kv, false)
  {
  }

  /** An envelope whose `expireTime` is after now answers its shop and touches nothing. */
  lemma LogicalReadFresh(kv: Kv, clock: int, envelope: Codec<RedisData<Shop>>, id: Long, now: int, stored: RedisData<Shop>)
    requires RoundTrips(envelope)
    requires GetText(kv, clock, ShopKey(id)) == Some(envelope.encode(stored)) && stored.expireTime > now
    ensures LogicalRead(kv, clock, envelope, id, now) == LogicalOutcome(Return(stored.data), kv, false)
  {
    assert envelope.decode(envelope.encode(stored)) == Some(stored) && !IsBlank(envelope.encode(stored));
  }

  /** A stale envelope still answers its shop at once; the rebuild is
      submitted exactly when the lock was free. */
  lemma LogicalReadStale(kv: Kv, clock: int, envelope: Codec<RedisData<Shop>>, id: Long, now: int, stored: RedisData<Shop>)
    requires RoundTrips(envelope)
    requires GetText(kv, clock, ShopKey(id)) == Some(envelope.encode(stored)) && stored.expireTime <= now
    ensures var r := LogicalRead(kv, clock, envelope, id, now);
            r.outcome == Return(stored.data) && (r.rebuild <==> !Present(kv, clock, LockKey(id)))
  {
    assert envelope.decode(envelope.encode(stored)) == Some(stored) && !IsBlank(envelope.encode(stored));
  }

  /** While the rebuild lock lives, a second stale read submits no second rebuild. */
  lemma LogicalReadRebuildsOnce(kv: Kv, c1: int, c2: int, envelope: Codec<RedisData<Shop>>, id: Long, now1: int, now2: int)
    requires ShopKey(id) in kv && kv[ShopKey(id)].expireAt.None?
    requires c1 <= c2 < ExpiryAfter(c1, LOCK_TTL)
    ensures var first := LogicalRead(kv, c1, envelope, id, now1);
            !(first.rebuild && LogicalRead(first.kv, c2, envelope, id, now2).rebuild)
  {
    var first := LogicalRead(kv, c1, envelope, id, now1);
    if first.rebuild {
      ShopKeysDistinct(id, id);
      assert first.kv[ShopKey(id)] == kv[ShopKey(id)];
      assert GetText(first.kv, c2, ShopKey(id)) == GetText(kv, c1, ShopKey(id));
      assert first.kv[LockKey(id)] == Entry(Text("1"), Some(ExpiryAfter(c1, LOCK_TTL)));
    }
  }

  /** `saveShop2Redis(id, expireSeconds)` at JVM time `now` (ms): the row
      (or null) in an envelope stale after `expireSeconds`, with no store TTL. */
  function SaveEnvelope(kv: Kv, clock: int, shops: Table, envelope: Codec<RedisData<Shop>>, id: Long, expireSeconds: int, now: int): (r: Kv)
    ensures ShopKey(id) in r && r[ShopKey(id)] == Entry(Text(envelope.encode(RedisData(GetById(shops, id), now + 1000 * expireSeconds))), None)
    ensures r - {ShopKey(id)} == kv - {ShopKey(id)}
  {
    SetText(kv, clock, ShopKey(id), envelope.encode(RedisData(GetById(shops, id), now + 1000 * expireSeconds)), None)
  }

  /** The submitted rebuild task: save with the 20-second logical TTL, then
      release the lock in `finally`. */
  function Rebuild(kv: Kv, clock: int, shops: Table, envelope: Codec<RedisData<Shop>>, id: Long, now: int): (r: Kv)
    ensures LockKey(id) !in r
    ensures r - {ShopKey(id), LockKey(id)} == kv - {ShopKey(id), LockKey(id)}
  {
    Del(SaveEnvelope(kv, clock, shops, envelope, id, REBUILD_SECONDS, now), LockKey(id))
  }

  /** After a rebuild at `now0`, reads within the next 20 seconds answer the
      row the rebuild loaded, and submit nothing. */
  lemma RebuildThenReadIsFresh(kv: Kv, clock: int, c2: int, shops: Table, envelope: Codec<RedisData<Shop>>, id: Long, now0: int, now: int)
    requires RoundTrips(envelope) && now < now0 + 1000 * REBUILD_SECONDS
    ensures var kv1 := Rebuild(kv, clock, shops, envelope, id, now0);
            LogicalRead(kv1, c2, envelope, id, now) == LogicalOutcome(Return(GetById(shops, id)), kv1, false)
  {
    var kv1 := Rebuild(kv, clock, shops, envelope, id, now0);
    var stored := RedisData(GetById(shops, id), now0 + 1000 * REBUILD_SECONDS);
    ShopKeysDistinct(id, id);
    assert kv1[ShopKey(id)] == Entry(Text(envelope.encode(stored)), None);
    LogicalReadFresh(kv1, c2, envelope, id, now, stored);
  }

  /** `ShopServiceImpl`: the shared store, the cache helper, JSON for shops and
      their envelopes, the shop table, and the queue of the rebuild executor. */
  class ShopService {
    const redis: Redis
    const cacheClient: CacheClient
    const shopCodec: Codec<Shop>
    const envelope: Codec<RedisData<Shop>>
    var shops: Table
    /** Ids whose rebuild was submitted to `CACHE_REBUILD_EXECUTOR` and has not run. */
    var pending: seq<Long>

    constructor(redis: Redis, shopCodec: Codec<Shop>, envelope: Codec<RedisData<Shop>>, shops: Table)
      ensures this.redis == redis && cacheClient.redis == redis
      ensures this.shopCodec == shopCodec && this.envelope == envelope
      ensures this.shops == shops && pending == []
    {
      this.redis := redis;
      cacheClient := new CacheClient(redis);
      this.shopCodec := shopCodec;
      this.envelope := envelope;
      this.shops := shops;
      pending := [];
    }

    method QueryById(id: Long) returns (r: Outcome<Response<Shop>>)
      requires cacheClient.redis == redis
      modifies redis
      ensures (r, redis.kv) == ReadShop(old(redis.kv), old(redis.clock), shops, shopCodec, id)
      ensures redis.clock == old(redis.clock)
    {
      var shop: Outcome<Option<Shop>>;
      ghost var loads: nat;
      shop, loads := cacheClient.QueryWithPassThrough(CACHE_SHOP_KEY, id, shopCodec, ShopLookup(shops), CACHE_SHOP_TTL, Minutes);
      match shop {
        case Throw(f) => r := Throw(f);
        case Return(None) => r := Return(Fail(SHOP_MISSING));
        case Return(Some(s)) => r := Return(Ok(Some(s)));
      }
    }

    method Update(shop: Shop) returns (r: Response<Shop>)
      modifies this, redis
      ensures (r, shops, redis.kv) == UpdateShop(old(shops), old(redis.kv), shop)
      ensures redis.clock == old(redis.clock) && pending == old(pending)
    {
      if shop.id.None? {
        return Fail(ID_REQUIRED);
      }
      var id := shop.id.value;
      if id in shops {
        shops := shops[id := Merge(shops[id], shop)];
      }
      redis.Delete(CACHE_SHOP_KEY + LongToString(id));
      r := Ok(None);
    }

    /** `tryLock(key)`: SET key "1" NX EX 10. */
    method TryLock(key: string) returns (ok: bool)
      modifies redis
      ensures (ok, redis.kv) == SetIfAbsent(old(redis.kv), redis.clock, key, "1", LOCK_TTL)
      ensures redis.clock == old(redis.clock)
    {
      ok := redis.SetNx(key, "1", LOCK_TTL);
    }

    /** `unLock(key)`: DEL key. */
    method UnLock(key: string)
      modifies redis
      ensures redis.kv == Del(old(redis.kv), key) && redis.clock == old(redis.clock)
    {
      redis.Delete(key);
    }

    /** `queryWithMutex(id)`: the generic mutex read on shop keys, caching
        with `CACHE_NULL_TTL` minutes; its retry recursion is a loop of at most
        `fuel` retries. */
    method QueryWithMutex(id: Long, fuel: nat) returns (r: Outcome<Option<Shop>>, ghost loads: nat)
      modifies redis
      ensures var q := Mutex(old(redis.kv), old(redis.clock), ShopKey(id), LockKey(id), shopCodec, ShopLookup(shops),
                             id, ToSeconds(Minutes, CACHE_NULL_TTL), fuel);
              r == q.outcome && redis.kv == q.kv && redis.clock == q.clock && loads == q.loads
    {
      var key := CACHE_SHOP_KEY + LongToString(id);
      var lockKey := LOCK_SHOP_KEY + LongToString(id);
      var ttl: Positive := ToSeconds(Minutes, CACHE_NULL_TTL);
      ghost var spec := Mutex(redis.kv, redis.clock, key, lockKey, shopCodec, ShopLookup(shops), id, ttl, fuel);
      var retries: nat := fuel;
      var entered := false;  // some call reached the try block, so a finally deletes the lock key
      loads := 0;
      while true
        invariant retries <= fuel
        invariant spec == (var rest := Mutex(redis.kv, redis.clock, key, lockKey, shopCodec, ShopLookup(shops), id, ttl, retries);
                           if entered then Released(rest, lockKey) else rest)
        decreases retries
      {
        var shopJson := redis.Get(key);
        if shopJson.Some? {
          r := if !IsBlank(shopJson.value) then Decoded(shopCodec, shopJson.value) else Return(None);
          break;
        }
        var isLock := TryLock(lockKey);
        entered := true;
        if !isLock {
          if retries == 0 {
            r := Throw(RetriesExhausted);
            break;
          }
          redis.Elapse(RETRY_SLEEP_MS);
          retries := retries - 1;
        } else {
          var shop := GetById(shops, id);
          loads := 1;
          if shop.None? {
            redis.Set(key, "", Some(ttl));
          } else {
            redis.Set(key, shopCodec.encode(shop.value), Some(ttl));
          }
          r := Return(shop);
          break;
        }
      }
      if entered {
        UnLock(lockKey);
      }
    }

    /** `queryWithLogicalExpire(id)` at JVM time `now` (ms). Submitting the
        rebuild appends the id to the executor's queue. */
    method QueryWithLogicalExpire(id: Long, now: int) returns (r: Outcome<Option<Shop>>)
      modifies this, redis
      ensures var l := LogicalRead(old(redis.kv), redis.clock, envelope, id, now);
              && r == l.outcome && redis.kv == l.kv
              && pending == old(pending) + (if l.rebuild then [id] else [])
      ensures shops == old(shops) && redis.clock == old(redis.clock)
    {
      var key := CACHE_SHOP_KEY + LongToString(id);
      var json := redis.Get(key);
      if json.None? || IsBlank(json.value) {
        return Return(None);
      }
      var decoded := envelope.decode(json.value);
      if decoded.None? {
        return Throw(DecodeFailed);
      }
      var redisData := decoded.value;
      if redisData.expireTime > now {
        return Return(redisData.data);
      }
      var isLock := TryLock(LOCK_SHOP_KEY + LongToString(id));
      if isLock {
        pending := pending + [id];
      }
      r := Return(redisData.data);
    }

    /** `saveShop2Redis(id, expireSeconds)` at JVM time `now` (ms). */
    method SaveShop2Redis(id: Long, expireSeconds: Long, now: int)
      modifies redis
      ensures redis.kv == SaveEnvelope(old(redis.kv), redis.clock, shops, envelope, id, expireSeconds, now)
      ensures redis.clock == old(redis.clock)
    {
      var shop := GetById(shops, id);
      var redisData := RedisData(shop, now + 1000 * expireSeconds);
      redis.Set(CACHE_SHOP_KEY + LongToString(id), envelope.encode(redisData), None);
    }

    /** The executor runs the oldest submitted rebuild at JVM time `now` (ms). */
    method RunRebuild(now: int)
      requires pending != []
      modifies this, redis
      ensures pending == old(pending)[1..] && shops == old(shops)
      ensures redis.kv == Rebuild(old(redis.kv), redis.clock, shops, envelope, old(pending)[0], now)
      ensures redis.clock == old(redis.clock)
    {
      var id := pending[0];
      pending := pending[1..];
      SaveShop2Redis(id, REBUILD_SECONDS, now);
      UnLock(LOCK_SHOP_KEY + LongToString(id));
    }
  }
}
