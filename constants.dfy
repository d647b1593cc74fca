/** The key prefixes and TTLs the cache paths use (`RedisConstants`). */
module RedisConstants {
  import opened Common

  /** Prefix of a cached shop; the shop-type list lives under the bare prefix. */
  const CACHE_SHOP_KEY: string := "cache:shop:"
  /** Prefix of the per-shop rebuild lock. */
  const LOCK_SHOP_KEY: string := "lock:shop:"
  /** Minutes a cached shop lives. */
  const CACHE_SHOP_TTL: Positive := 30
  /** Minutes an empty marker lives. */
  const CACHE_NULL_TTL: Positive := 2

  /** Keys built from the two prefixes never meet, and the shop key of an id
      is never the bare prefix under which the type list is cached. */
  lemma ShopKeysDistinct(id: Long, other: Long)
    ensures CACHE_SHOP_KEY + LongToString(id) != LOCK_SHOP_KEY + LongToString(other)
    ensures CACHE_SHOP_KEY + LongToString(id) != CACHE_SHOP_KEY
  {
    assert (CACHE_SHOP_KEY + LongToString(id))[0] == 'c';
    assert (LOCK_SHOP_KEY + LongToString(other))[0] == 'l';
  }

  /** Different ids never share a shop key. */
  lemma ShopKeyInjective(a: Long, b: Long)
    requires a != b
    ensures CACHE_SHOP_KEY + LongToString(a) != CACHE_SHOP_KEY + LongToString(b)
  {
    LongToStringInjective(a, b);
    assert (CACHE_SHOP_KEY + LongToString(a))[|CACHE_SHOP_KEY|..] == LongToString(a);
    assert (CACHE_SHOP_KEY + LongToString(b))[|CACHE_SHOP_KEY|..] == LongToString(b);
  }
}
