# hm-dianping caching and flash-sale core, in Dafny

This project models the Redis-backed layer of hm-dianping, a Spring Boot
local-reviews service. The layer has six parts:

- **`RedisIdWorker`** builds 64-bit order ids. The high 32 bits hold the seconds since 2022-01-01. The low 32 bits hold a per-prefix, per-day counter kept in Redis.
- **`SimpleRedisLock`** is a named lock under `lock:<name>`. It is acquired with SET NX EX and holds an owner token, the process UUID plus the thread id. A compare-and-delete script releases it.
- **`CacheClient`** is a generic read-through cache. Its pass-through read caches an empty string as a marker for "absent from the database". Its mutex read rebuilds a missing entry under a SET NX lock and retries every 50 ms while the lock is busy. It also writes logical-expiry envelopes.
- **`ShopServiceImpl`**:
  - `queryById` reads through the pass-through cache;
  - `update` writes the table, then deletes the cached copy;
  - it has a mutex read of its own;
  - its logical-expiry read answers stale data and submits a rebuild to a thread pool.
- **`ShopTypeServiceImpl`** caches the whole shop-type list under one key with no TTL.
- **`VoucherOrderServiceImpl`** sells flash-sale vouchers:
  - a sale-window check and a stock check;
  - one order per user and voucher;
  - a conditional `stock > 0` decrement and an order insert, in one transaction.

Redis is a `class Redis` with a map from key to entry and a clock in
milliseconds. Each entry holds text or an integer, plus an optional expiry
instant. An expired entry reads as absent, and a client's sleep is time
passing on that clock. Each database table is a `map` field of the service
that owns it. JSON is a `Codec` of two functions, and lemmas that need a
round trip assume it through `RoundTrips`. Every method that changes the
store or a table is proved against a pure function of the old state. The
lemmas then state what the code promises about those functions:

- round trips and decoding of ids;
- mutual exclusion and owner-only release of the lock;
- at most one database load per miss;
- cache-aside consistency kept by invalidate-on-update;
- stale-while-revalidate with one rebuild per lock lifetime;
- no overselling and one order per user, over any sequence of requests.

Some behaviours of the code are kept as written and exposed by lemmas:

- The `finally` of the mutex read deletes the lock key even when the caller never acquired it (`Cache.MutexBusyDeletesForeignLock`).
- `CacheClient` uses the shop lock prefix whatever the key prefix is (`Cache.CacheClient.QueryWithMutex`).
- `ShopServiceImpl.queryWithMutex` caches found shops for the marker's TTL (`ShopService.ShopMutexUsesNullTtl`).
- A counter of 2^32 or more runs into the timestamp bits (`IdWorker.CounterOverflowCollides`).

Three more behaviours of the code that the model keeps:

- **Decode errors.** `JSONUtil.toBean` throws on text it cannot parse, so a read of an undecodable cache entry ends in `Throw(DecodeFailed)`; it is not treated as a miss.
- **One TTL.** The pass-through and generic mutex reads of `CacheClient` write the empty marker and the record with the same caller-supplied TTL.
- **Direct ordering.** `VoucherOrderServiceImpl` has no admission script, queue or worker: `seckillVoucher` checks the window and the stock and calls `createVoucherOrder` directly.

`RedisConstants.java` is not part of this model. Its values are taken to be:

| constant | value |
|---|---|
| `CACHE_SHOP_KEY` | `"cache:shop:"` |
| `LOCK_SHOP_KEY` | `"lock:shop:"` |
| `CACHE_SHOP_TTL` | 30 minutes |
| `CACHE_NULL_TTL` | 2 minutes |

## Model

| member | source | states |
|---|---|---|
| Common.LongToString | src/main/java/com/hmdp/utils/CacheClient.java:57 | the decimal text appended by `keyPrefix + id` is non-empty and starts with '-' exactly for a negative id |
| Common.LongToStringInjective | src/main/java/com/hmdp/utils/CacheClient.java:57 | different ids give different key suffixes |
| Common.DigitsInjective | src/main/java/com/hmdp/utils/CacheClient.java:57 | different non-negative ids have different decimal digits, the unsigned half of distinct `keyPrefix + id` keys |
| Common.IsBlank | src/main/java/com/hmdp/utils/CacheClient.java:62 | no contract of its own: `StrUtil.isBlank` on a non-null string, every character blank; `Cache.CachedMarkerAnswersNull` states what a blank value answers |
| Store.ToSeconds | src/main/java/com/hmdp/utils/CacheClient.java:36 | `unit.toSeconds(time)` is at least `time` for a positive time |
| Store.ExpiryAfter | src/main/java/com/hmdp/utils/CacheClient.java:30 | a TTL written now expires strictly later |
| Store.GetText | src/main/java/com/hmdp/utils/CacheClient.java:59 | GET answers non-null exactly when the key holds a live entry |
| Store.SetText | src/main/java/com/hmdp/utils/CacheClient.java:30 | after SET, GET answers the text written, the entry expires `ttl` seconds after now or never when no TTL is given, and every other key is unchanged |
| Store.SetIfAbsent | src/main/java/com/hmdp/utils/SimpleRedisLock.java:58 | SET NX succeeds exactly when the key is absent or expired; on success the key holds the text with the TTL, and otherwise nothing changes |
| Store.Del | src/main/java/com/hmdp/utils/CacheClient.java:146 | DEL removes the key and nothing else, and deleting an absent key changes nothing |
| Store.Incr | src/main/java/com/hmdp/utils/RedisIdWorker.java:47 | INCR returns the held count plus one (1 for an absent or expired key) and stores it, keeping the expiry; it throws exactly when the live value is text (numeric text included, see Left out), as `NotAnInteger`, or the largest long, and then changes nothing; other keys are untouched |
| Store.Redis.Get | src/main/java/com/hmdp/utils/CacheClient.java:59 | the store's GET agrees with `GetText` |
| Store.Redis.HasKey | src/main/java/com/hmdp/service/impl/ShopTypeServiceImpl.java:31 | EXISTS is true exactly for a live key |
| Store.Redis.Set | src/main/java/com/hmdp/utils/CacheClient.java:30 | the store after SET is `SetText` of the old store |
| Store.Redis.SetNx | src/main/java/com/hmdp/utils/SimpleRedisLock.java:58 | the store and answer after SET NX are `SetIfAbsent` of the old store |
| Store.Redis.Delete | src/main/java/com/hmdp/utils/CacheClient.java:146 | the store after DEL is `Del` of the old store |
| Store.Redis.Increment | src/main/java/com/hmdp/utils/RedisIdWorker.java:47 | the store and answer after INCR are `Incr` of the old store |
| Store.Redis.Elapse | src/main/java/com/hmdp/utils/CacheClient.java:119 | sleeping advances the clock by the sleep and changes no entry |
| IdWorker.Pow2Add | src/main/java/com/hmdp/utils/RedisIdWorker.java:19 | 2^(a+b) = 2^a * 2^b, used to place the 32 count bits |
| IdWorker.Pow2Of32 | src/main/java/com/hmdp/utils/RedisIdWorker.java:19 | 2^COUNT_BITS is 2^32 |
| IdWorker.Wrap | src/main/java/com/hmdp/utils/RedisIdWorker.java:39 | Java `long` overflow keeps the value modulo 2^64 and is the identity in range |
| IdWorker.BitOrAppends | src/main/java/com/hmdp/utils/RedisIdWorker.java:51 | OR-ing a number below 2^n into a multiple of 2^n adds it |
| IdWorker.ShiftLeftValue | src/main/java/com/hmdp/utils/RedisIdWorker.java:51 | `timestamp << 32` is timestamp * 2^32 for timestamps below 2^31 |
| IdWorker.LongOrValue | src/main/java/com/hmdp/utils/RedisIdWorker.java:51 | Java's OR on non-negative longs whose result fits is the bitwise OR of naturals |
| IdWorker.ComposeIdValue | src/main/java/com/hmdp/utils/RedisIdWorker.java:51 | in range, the id equals timestamp * 2^32 + count |
| IdWorker.ComposeId | src/main/java/com/hmdp/utils/RedisIdWorker.java:51 | no contract of its own: `timestamp << COUNT_BITS` OR-ed with `count` on Java longs; its value is stated by `IdWorker.ComposeIdValue` and `IdWorker.ComposeIdDecodes` |
| IdWorker.ComposeIdDecodes | src/main/java/com/hmdp/utils/RedisIdWorker.java:15-51 | for timestamp in [0, 2^31) and count in [0, 2^32), the id is non-negative, `id >> 32` gives the timestamp back and `id & 0xFFFFFFFF` the count |
| IdWorker.ComposeIdOrdered | src/main/java/com/hmdp/utils/RedisIdWorker.java:51 | ids order by (timestamp, count): a later second gives a larger id whatever the counts, and a larger count in the same second gives a larger id |
| IdWorker.ComposeIdCountsDiffer | src/main/java/com/hmdp/utils/RedisIdWorker.java:51 | two in-range ids with different counts differ, whatever their timestamps |
| IdWorker.CounterOverflowCollides | src/main/java/com/hmdp/utils/RedisIdWorker.java:51 | for an even second t, count 2^32 + c in t gives the same id as count c in t + 1 |
| IdWorker.CounterKeyInjective | src/main/java/com/hmdp/utils/RedisIdWorker.java:44-47 | with the 10-character date, different (prefix, date) pairs never share a counter key |
| IdWorker.CounterKey | src/main/java/com/hmdp/utils/RedisIdWorker.java:47 | no contract of its own: the key `icr:<prefix>:<date>`; `IdWorker.CounterKeyInjective` states that it separates prefixes and days |
| IdWorker.NextIdStep | src/main/java/com/hmdp/utils/RedisIdWorker.java:34-52 | one `nextId` changes only the counter key, raises its count by exactly one on success, and changes nothing when INCR throws |
| IdWorker.NextIdStepValue | src/main/java/com/hmdp/utils/RedisIdWorker.java:39-51 | with room in the counter, `nextId` returns the id of the current second and the incremented count |
| IdWorker.NextIdIncreasing | src/main/java/com/hmdp/utils/RedisIdWorker.java:47-51 | two calls with one prefix and day, the second no earlier, both succeed and return strictly increasing, so distinct, ids |
| IdWorker.NextIdDistinct | src/main/java/com/hmdp/utils/RedisIdWorker.java:47-51 | two calls with one prefix and day both succeed and return distinct ids whatever the two clock readings, even a clock that steps back |
| IdWorker.RedisIdWorker.constructor | src/main/java/com/hmdp/utils/RedisIdWorker.java:23-25 | the worker uses the given store |
| IdWorker.RedisIdWorker.NextId | src/main/java/com/hmdp/utils/RedisIdWorker.java:34-52 | the id returned and the store left are those of `NextIdStep` |
| Lock.TokensDistinct | src/main/java/com/hmdp/utils/SimpleRedisLock.java:53 | two threads of one process have different owner tokens |
| Lock.Token | src/main/java/com/hmdp/utils/SimpleRedisLock.java:53 | no contract of its own: the process prefix followed by the thread id; `Lock.TokensDistinct` states that threads get different tokens |
| Lock.Release | src/main/java/com/hmdp/utils/SimpleRedisLock.java:66-74 | the release deletes the lock key exactly when it holds the caller's token, and otherwise changes nothing |
| Lock.AcquireThenReleaseFrees | src/main/java/com/hmdp/utils/SimpleRedisLock.java:58-88 | acquiring a free lock succeeds and stores the token, and the holder's release before the TTL lapses leaves the key absent |
| Lock.HeldLockExcludes | src/main/java/com/hmdp/utils/SimpleRedisLock.java:58-60 | acquiring a held lock fails and leaves the holder's token and TTL in place |
| Lock.ReleaseByOtherKeepsLock | src/main/java/com/hmdp/utils/SimpleRedisLock.java:71-74 | a release by a thread other than the holder leaves the lock held by the holder |
| Lock.LateReleaseKeepsNewOwner | src/main/java/com/hmdp/utils/SimpleRedisLock.java:66-88 | after a lock expires and another thread takes it, the first holder's late release leaves the new owner holding it |
| Lock.SimpleRedisLock.constructor | src/main/java/com/hmdp/utils/SimpleRedisLock.java:20-27 | the lock keeps its name and store, and its token prefix is the process UUID followed by '-' |
| Lock.SimpleRedisLock.TryLock | src/main/java/com/hmdp/utils/SimpleRedisLock.java:50-61 | `tryLock` is SET NX of `"lock:" + name` to `ID_PREFIX + threadId` with the given TTL, so it succeeds exactly when the key was free and touches no other key |
| Lock.SimpleRedisLock.Unlock | src/main/java/com/hmdp/utils/SimpleRedisLock.java:64-90 | `unlock` runs the compare-and-delete on `"lock:" + name` with the caller's token |
| RedisConstants.ShopKeysDistinct | src/main/java/com/hmdp/service/impl/ShopServiceImpl.java:109-119 | a shop's cache key never equals any shop's lock key, and never equals the bare prefix the type list uses |
| RedisConstants.ShopKeyInjective | src/main/java/com/hmdp/service/impl/ShopServiceImpl.java:85 | different shop ids have different cache keys |
| Cache.Populate | src/main/java/com/hmdp/utils/CacheClient.java:75-81 | a miss caches the record's JSON, or the empty marker for null, with an expiry `ttl` seconds after now, and changes no other key |
| Cache.Decoded | src/main/java/com/hmdp/utils/CacheClient.java:63 | no contract of its own: `JSONUtil.toBean`, which throws `DecodeFailed` on text it cannot parse (also line 105); `Cache.CachedRecordAnswers` states that a record's own JSON decodes to it |
| Cache.PassThrough | src/main/java/com/hmdp/utils/CacheClient.java:55-83 | a hit or marker answers without loading or writing; a miss loads exactly once, answers the database's value and leaves the key as `Populate` writes it (JSON or marker, caller's TTL); only the key can change |
| Cache.PassThroughAbsentLoadsOnce | src/main/java/com/hmdp/utils/CacheClient.java:67-77 | two reads of an id the database lacks, within the marker's TTL, load once, both answer null, and the marker is the empty string |
| Cache.PassThroughCachesRecord | src/main/java/com/hmdp/utils/CacheClient.java:59-82 | a found record is cached as its JSON, and a read within the TTL returns the same record with no load and no write |
| Cache.CachedRecordAnswers | src/main/java/com/hmdp/utils/CacheClient.java:59-66 | a live cached JSON record is answered as that record by both the pass-through and the mutex read, with no load, no write and no wait |
| Cache.CachedMarkerAnswersNull | src/main/java/com/hmdp/utils/CacheClient.java:67-71 | a live blank value is answered as null by both the pass-through and the mutex read, with no load, no write and no wait |
| Cache.Mutex | src/main/java/com/hmdp/utils/CacheClient.java:98-138 | the mutex read loads at most once, changes only the key and the lock key, answers a hit without touching anything, and after any miss the lock key is absent; a load answers the database's value and caches it (JSON or marker) with the caller's TTL |
| Cache.MutexOutlastsLock | src/main/java/com/hmdp/utils/CacheClient.java:116-121 | a read whose retries outlast the lock's expiry never runs out of retries, and after a miss it ends with the database's value, loaded once by itself |
| Cache.Released | src/main/java/com/hmdp/utils/CacheClient.java:133-136 | the `finally` leaves the lock key absent, every other key as it was, and the answer, clock and load count unchanged |
| Cache.MutexOutlastsTryLock | src/main/java/com/hmdp/utils/CacheClient.java:140-143 | a 10-second lock taken no later than the read stops blocking it within 200 retries, and a missing read then answers the database's value, loaded once |
| Cache.MutexBusyDeletesForeignLock | src/main/java/com/hmdp/utils/CacheClient.java:116-136 | a miss that finds the lock held and gives up does not load, and its `finally` deletes the other caller's lock |
| Cache.MutexLoadsOnce | src/main/java/com/hmdp/utils/CacheClient.java:98-138 | from a free lock, a first read loads once and releases the lock, and a second read loads nothing |
| Cache.CacheClient.constructor | src/main/java/com/hmdp/utils/CacheClient.java:25-27 | the client uses the given store |
| Cache.CacheClient.Set | src/main/java/com/hmdp/utils/CacheClient.java:29-31 | `set` writes the value's JSON under the key with TTL `unit.toSeconds(time)` |
| Cache.CacheClient.SetWithLogicalExpire | src/main/java/com/hmdp/utils/CacheClient.java:33-39 | the envelope written holds the value and `expireTime = now + unit.toSeconds(time)`, with no store TTL |
| Cache.CacheClient.QueryWithPassThrough | src/main/java/com/hmdp/utils/CacheClient.java:55-83 | the answer, store and load count are those of `PassThrough` on `keyPrefix + id` |
| Cache.CacheClient.QueryWithMutex | src/main/java/com/hmdp/utils/CacheClient.java:98-138 | the retry loop ends in the answer, store, clock and load count of `Mutex` on `keyPrefix + id`, locked by `LOCK_SHOP_KEY + id` whatever the prefix |
| Cache.CacheClient.TryLock | src/main/java/com/hmdp/utils/CacheClient.java:140-143 | `tryLock` is SET NX of "1" with a 10-second TTL |
| Cache.CacheClient.UnLock | src/main/java/com/hmdp/utils/CacheClient.java:145-147 | `unLock` deletes the key, whoever set it |
| ShopService.GetById | src/main/java/com/hmdp/service/impl/ShopServiceImpl.java:134 | `getById` answers a row exactly for an id in the table |
| ShopService.UpdateById | src/main/java/com/hmdp/service/impl/ShopServiceImpl.java:83 | `updateById` keeps the table's ids, changes no other row and keeps every row under its own id |
| ShopService.Merge | src/main/java/com/hmdp/service/impl/ShopServiceImpl.java:83 | no contract of its own: the SET clause of `updateById`, each non-null column of the patch replacing the row's; `ShopService.UpdateThenReadIsFresh` states that the next read answers the merged row |
| ShopService.ReadShop | src/main/java/com/hmdp/service/impl/ShopServiceImpl.java:41-60 | `queryById` fails with "店铺不存在！" exactly when the pass-through read answers null, answers ok with the shop whenever the read finds one, passes a throw through with its failure unchanged, and leaves the store as the read does |
| ShopService.ReadShopMatchesTable | src/main/java/com/hmdp/service/impl/ShopServiceImpl.java:41-60 | while the cache agrees with the table, `queryById` answers the table's row, fails exactly for a missing id, and keeps the cache agreeing |
| ShopService.UpdateShop | src/main/java/com/hmdp/service/impl/ShopServiceImpl.java:72-88 | a null id fails with "店铺ID不能为空" and changes nothing; otherwise the row is updated and the shop's cache key is deleted, and no other key changes |
| ShopService.UpdateKeepsCacheAgreeing | src/main/java/com/hmdp/service/impl/ShopServiceImpl.java:83-85 | invalidate-on-update keeps every live cached shop equal to the table |
| ShopService.UpdateThenReadIsFresh | src/main/java/com/hmdp/service/impl/ShopServiceImpl.java:72-88 | after an update of an existing row, `queryById` loads once and answers the updated row |
| ShopService.ShopMutexUsesNullTtl | src/main/java/com/hmdp/service/impl/ShopServiceImpl.java:134-141 | the service's mutex read caches a found shop for 2 minutes (`CACHE_NULL_TTL`), shorter than `CACHE_SHOP_TTL` |
| ShopService.LogicalRead | src/main/java/com/hmdp/service/impl/ShopServiceImpl.java:162-202 | the logical-expiry read changes at most the lock key, submits a rebuild only when it took the free lock, and never throws when it submits one |
| ShopService.LogicalReadMiss | src/main/java/com/hmdp/service/impl/ShopServiceImpl.java:166-170 | a missing or blank entry answers null, takes no lock and submits no rebuild |
| ShopService.LogicalReadFresh | src/main/java/com/hmdp/service/impl/ShopServiceImpl.java:172-180 | an envelope whose `expireTime` is after now answers its shop and changes nothing |
| ShopService.LogicalReadStale | src/main/java/com/hmdp/service/impl/ShopServiceImpl.java:182-201 | a stale envelope still answers its shop, and a rebuild is submitted exactly when the lock was free |
| ShopService.LogicalReadRebuildsOnce | src/main/java/com/hmdp/service/impl/ShopServiceImpl.java:184-199 | while the rebuild lock lives, a second stale read submits no second rebuild |
| ShopService.SaveEnvelope | src/main/java/com/hmdp/service/impl/ShopServiceImpl.java:204-210 | `saveShop2Redis` stores the row (or null) with `expireTime = now + expireSeconds`, with no store TTL, and changes no other key |
| ShopService.Rebuild | src/main/java/com/hmdp/service/impl/ShopServiceImpl.java:187-198 | the rebuild task always leaves the lock key deleted and changes nothing besides the shop key and lock key |
| ShopService.RebuildThenReadIsFresh | src/main/java/com/hmdp/service/impl/ShopServiceImpl.java:187-210 | reads within 20 seconds of a rebuild answer the row it loaded and submit nothing |
| ShopService.ShopService.constructor | src/main/java/com/hmdp/service/impl/ShopServiceImpl.java:29-33 | the service and its cache client share one store, and no rebuild is pending |
| ShopService.ShopService.QueryById | src/main/java/com/hmdp/service/impl/ShopServiceImpl.java:41-60 | the answer and store are those of `ReadShop` |
| ShopService.ShopService.Update | src/main/java/com/hmdp/service/impl/ShopServiceImpl.java:72-88 | the answer, table and store are those of `UpdateShop` |
| ShopService.ShopService.TryLock | src/main/java/com/hmdp/service/impl/ShopServiceImpl.java:90-93 | `tryLock` is SET NX of "1" with a 10-second TTL |
| ShopService.ShopService.UnLock | src/main/java/com/hmdp/service/impl/ShopServiceImpl.java:95-97 | `unLock` deletes the key |
| ShopService.ShopService.QueryWithMutex | src/main/java/com/hmdp/service/impl/ShopServiceImpl.java:107-150 | the retry loop ends in the answer, store, clock and load count of `Mutex` on the shop's keys with the `CACHE_NULL_TTL` TTL |
| ShopService.ShopService.QueryWithLogicalExpire | src/main/java/com/hmdp/service/impl/ShopServiceImpl.java:162-202 | the answer and store are those of `LogicalRead`, and the id joins the executor's queue exactly when a rebuild was submitted |
| ShopService.ShopService.SaveShop2Redis | src/main/java/com/hmdp/service/impl/ShopServiceImpl.java:204-210 | the store after `saveShop2Redis` is `SaveEnvelope` of the old store |
| ShopService.ShopService.RunRebuild | src/main/java/com/hmdp/service/impl/ShopServiceImpl.java:187-198 | the oldest submitted rebuild runs as `Rebuild` and leaves the queue |
| ShopTypeService.ReadTypeList | src/main/java/com/hmdp/service/impl/ShopTypeServiceImpl.java:26-39 | the table is queried exactly when the key is absent; a hit writes nothing; a miss stores the table's list with no TTL |
| ShopTypeService.MissReturnsStoredList | src/main/java/com/hmdp/service/impl/ShopTypeServiceImpl.java:36-38 | on a miss the answer is the list just stored |
| ShopTypeService.HitReturnsCachedList | src/main/java/com/hmdp/service/impl/ShopTypeServiceImpl.java:31-34 | on a hit the answer is the cached list, with no query and no write |
| ShopTypeService.LaterCallsHit | src/main/java/com/hmdp/service/impl/ShopTypeServiceImpl.java:31-36 | after any call every later call is a hit with the same answer, whatever the table then holds |
| ShopTypeService.ShopTypeService.QueryTypeList | src/main/java/com/hmdp/service/impl/ShopTypeServiceImpl.java:26-39 | the answer, store and query flag are those of `ReadTypeList` |
| VoucherOrder.CreateOrder | src/main/java/com/hmdp/service/impl/VoucherOrderServiceImpl.java:71-107 | an existing order is refused with "用户已经购买过一次！" and changes nothing; a table change happens only on success; success means positive stock dropped by exactly one and exactly one order (returned id, user, voucher) under a fresh id was inserted; with no prior order, a missing voucher or no stock fails with "库存不足！" and changes nothing, and otherwise the order counter advances as `NextIdStep` says, an id failure or an existing id throws with the tables unchanged, and a fresh id is the one returned; only the order counter key changes in Redis |
| VoucherOrder.Seckill | src/main/java/com/hmdp/service/impl/VoucherOrderServiceImpl.java:39-68 | a missing voucher throws; a sale not yet begun fails with "秒杀尚未开始", an ended one with "秒杀已经结束", no stock with "库存不足", each with no change; inside the window with stock the call is exactly `CreateOrder`; a change happens only inside the window |
| VoucherOrder.WindowInclusive | src/main/java/com/hmdp/service/impl/VoucherOrderServiceImpl.java:45-52 | requests at exactly `beginTime` and exactly `endTime` reach the order logic |
| VoucherOrder.OrdersForInsert | src/main/java/com/hmdp/service/impl/VoucherOrderServiceImpl.java:102 | inserting an order grows its voucher's orders by one and no other voucher's |
| VoucherOrder.InsertKeepsStockAccounted | src/main/java/com/hmdp/service/impl/VoucherOrderServiceImpl.java:84-102 | decrementing one unit and inserting one order keeps initial stock = stock + orders |
| VoucherOrder.InsertKeepsOnePerUser | src/main/java/com/hmdp/service/impl/VoucherOrderServiceImpl.java:76-102 | inserting an order for a user without one keeps one order per user and voucher |
| VoucherOrder.InsertKeepsConsistent | src/main/java/com/hmdp/service/impl/VoucherOrderServiceImpl.java:76-102 | a successful order keeps the tables consistent |
| VoucherOrder.SeckillKeepsConsistent | src/main/java/com/hmdp/service/impl/VoucherOrderServiceImpl.java:39-107 | every request keeps non-negative stock, stock accounted for, and one order per user |
| VoucherOrder.RunKeepsConsistent | src/main/java/com/hmdp/service/impl/VoucherOrderServiceImpl.java:76-102 | over any sequence of requests, each at its own store time, the tables stay consistent, and no voucher has more orders than its initial stock |
| VoucherOrder.SecondOrderRefused | src/main/java/com/hmdp/service/impl/VoucherOrderServiceImpl.java:76-81 | after a successful order, the same user's next order of that voucher is refused and changes nothing |
| VoucherOrder.VoucherOrderService.constructor | src/main/java/com/hmdp/service/impl/VoucherOrderServiceImpl.java:23-26 | the service's id worker uses its store, and there are no orders |
| VoucherOrder.VoucherOrderService.SeckillVoucher | src/main/java/com/hmdp/service/impl/VoucherOrderServiceImpl.java:39-68 | the answer, tables and store are those of `Seckill` |
| VoucherOrder.VoucherOrderService.CreateVoucherOrder | src/main/java/com/hmdp/service/impl/VoucherOrderServiceImpl.java:71-107 | the answer, tables and store are those of `CreateOrder`, with the rollback restoring the stock when an exception escapes |

## Left out

- Concurrency is left out: `synchronized` on interned user ids, transaction isolation, the rebuild thread pool and interleavings inside an operation. Operations run one after another. The lock and mutex lemmas speak of whole operations interleaved.
- `LocalDateTime.now()`, the time zone and date formatting are left out. The epoch second or millisecond and the `yyyy:MM:dd` date are parameters. `seckillVoucher` reads the clock twice, but the model reads it once.
- VoucherOrder.Seckill: the window is checked against a whole-second `now`, while Java compares `LocalDateTime.now()` with sub-second precision. A request up to one second after `endTime` (say at 12:00:00.400 for an `endTime` of 12:00:00) is admitted by the model but refused in Java with "秒杀已经结束"; the start of the window is unaffected.
- Hutool JSON is left out. It is a pair of functions, and `RedisData`'s two-step decode is one codec for the envelope. An envelope with a null `expireTime`, which would throw on the null dereference, is not represented.
- `Common.IsBlank` treats only the characters Hutool counts as blank; nothing else about Hutool's `StrUtil` is modelled.
- `Store.ToSeconds`: only whole-second `TimeUnit`s are modelled, and durations are positive (the `Positive` type). A zero or negative TTL, which Redis refuses, is not modelled.
- Redis expiry is judged exactly at each read. When Redis actually evicts keys is left out. INCR on text and INCR past the largest long are failures, not a Redis error reply.
- Store.Incr: a text value is refused even when it is a decimal integer such as `"5"`, which Redis would increment. The counter keys `icr:<prefix>:<date>` are only ever written by INCR here, so they never hold text.
- `unlock.lua` is not part of this model. `Lock.Release` follows the compare-and-delete of the commented-out code.
- `ID_PREFIX` is a random UUID, so it is a constructor parameter. The thread id and `UserHolder`'s user are method parameters.
- Cache.Mutex: the unbounded retry recursion is bounded by `fuel`. Running out stands for the stack overflow the recursion would eventually hit, and `Cache.MutexOutlastsLock` shows how many retries are enough. The `InterruptedException` of `Thread.sleep` is not modelled.
- Cache.CacheClient.QueryWithPassThrough: the generic `ID` type is fixed to `long`, the only type any caller uses.
- ShopService.Shop has only some of the entity's columns. The others follow the same null-means-unchanged rule in `updateById`.
- ShopService.ShopService.RunRebuild requires a pending rebuild. Exceptions inside the rebuild task cannot occur in the model.
- ShopTypeService.ShopTypeService.QueryTypeList: `RedisTemplate<String, Object>`'s value serializer is modelled as a codec over stored text.
- VoucherOrder.CreateOrder: an insert whose generated id already exists is refused as a duplicate key and rolled back. Id collisions beyond that are not modelled.
- `UserServiceImpl`, `LoginInterceptor`, `RefreshTokenInterceptor`, `MvcConfig`, `RedissonConfig` and `ILock` are not part of this model. They are login, HTTP and client wiring, and `ILock` is only the interface `SimpleRedisLock` implements.
