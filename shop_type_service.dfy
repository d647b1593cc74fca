/** `ShopTypeServiceImpl`: the list of shop types, cached whole under one key
    with no expiry (cache-aside). */
module ShopTypeService {
  import opened Common
  import opened Store
  import opened RedisConstants
  import opened Cache

  /** A row of `tb_shop_type`. */
  datatype ShopType = ShopType(id: Long, name: string, icon: string, sort: int)

  /** The key of the type list: the bare shop prefix, with nothing appended. */
  const TYPE_LIST_KEY: string := CACHE_SHOP_KEY

  /** What `queryTypeList` returns, leaves in the store, and whether it queried the table. */
  datatype TypeListRead = TypeListRead(outcome: Outcome<Response<seq<ShopType>>>, kv: Kv, queried: bool)

  function AsResponse(read: Outcome<Option<seq<ShopType>>>): Outcome<Response<seq<ShopType>>> {
    match read
    case Return(data) => Return(Ok(data))
    case Throw(f) => Throw(f)
  }

  /** `queryTypeList`: when the key exists its value is returned; otherwise
      the table's list is stored with no TTL and then read back. */
  function ReadTypeList(kv: Kv, clock: int, types: seq<ShopType>, codec: Codec<seq<ShopType>>): (r: TypeListRead)
    ensures r.queried <==> !Present(kv, clock, TYPE_LIST_KEY)
    ensures !r.queried ==> r.kv == kv
    ensures r.queried ==> r.kv == kv[TYPE_LIST_KEY := Entry(Text(codec.encode(types)), None)]
    ensures r.outcome.Return? ==> r.outcome.value.Ok? && r.outcome.value.data.Some?
  {
    if Present(kv, clock, TYPE_LIST_KEY) then
      TypeListRead(AsResponse(Decoded(codec, GetText(kv, clock, TYPE_LIST_KEY).value)), kv, false)
    else
      var kv1 := SetText(kv, clock, TYPE_LIST_KEY, codec.encode(types), None);
      TypeListRead(AsResponse(Decoded(codec, GetText(kv1, clock, TYPE_LIST_KEY).value)), kv1, true)
  }

  /** On a miss the answer is the list just stored, read back. */
  lemma MissReturnsStoredList(kv: Kv, clock: int, types: seq<ShopType>, codec: Codec<seq<ShopType>>)
    requires RoundTrips(codec) && !Present(kv, clock, TYPE_LIST_KEY)
    ensures ReadTypeList(kv, clock, types, codec).outcome == Return(Ok(Some(types)))
  {
    assert codec.decode(codec.encode(types)) == Some(types);
  }

  /** A hit answers the stored list, without the table and without a write. */
  lemma HitReturnsCachedList(kv: Kv, clock: int, types: seq<ShopType>, cached: seq<ShopType>, codec: Codec<seq<ShopType>>)
    requires RoundTrips(codec) && GetText(kv, clock, TYPE_LIST_KEY) == Some(codec.encode(cached))
    ensures ReadTypeList(kv, clock, types, codec) == TypeListRead(Return(Ok(Some(cached))), kv, false)
  {
    assert codec.decode(codec.encode(cached)) == Some(cached);
  }

  /** The key never expires: after any call every later call, however late
      and whatever the table then holds, is a hit with the same answer. */
  lemma LaterCallsHit(kv: Kv, c1: int, c2: int, types1: seq<ShopType>, types2: seq<ShopType>, codec: Codec<seq<ShopType>>)
    requires c1 <= c2
    requires !Present(kv, c1, TYPE_LIST_KEY) || kv[TYPE_LIST_KEY].expireAt.None?
    ensures var first := ReadTypeList(kv, c1, types1, codec);
            var second := ReadTypeList(first.kv, c2, types2, codec);
            && !second.queried && second.kv == first.kv && second.outcome == first.outcome
  {
  }

  /** `ShopTypeServiceImpl`: the shared store, JSON for the list, and the type table. */
  class ShopTypeService {
    const redis: Redis
    const codec: Codec<seq<ShopType>>
    var types: seq<ShopType>

    constructor(redis: Redis, codec: Codec<seq<ShopType>>, types: seq<ShopType>)
      ensures this.redis == redis && this.codec == codec && this.types == types
    {
      this.redis := redis;
      this.codec := codec;
      this.types := types;
    }

    method QueryTypeList() returns (r: Outcome<Response<seq<ShopType>>>, ghost queried: bool)
      modifies redis
      ensures var read := ReadTypeList(old(redis.kv), redis.clock, types, codec);
              r == read.outcome && redis.kv == read.kv && queried == read.queried
      ensures redis.clock == old(redis.clock)
    {
      var key := CACHE_SHOP_KEY;
      var hasKey := redis.HasKey(key);
      queried := !hasKey;
      if !hasKey {
        redis.Set(key, codec.encode(types), None);
      }
      var stored := redis.Get(key);
      r := AsResponse(Decoded(codec, stored.value));
    }
  }
}
